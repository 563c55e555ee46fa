/** The simpler mode benchmark: a generated conversation, no gaps, no late accountant. */
module ProxyModes {
  import opened Messages
  import opened Tokens
  import opened Replay
  import opened Scenarios
  import opened ChargeLaws

  /** The generated tool output of a turn. */
  type ToolOutput = nat -> string

  function Request(out: ToolOutput, t: nat): seq<Message> {
    [UserText("Analyze tool output turn " + Decimal(t) + " and summarize anomalies."),
     ToolMessage("tool-" + Decimal(t), out(t))]
  }

  /** Turns 1..k with their answers. */
  function Answered(out: ToolOutput, k: nat): seq<Message> {
    if k == 0 then []
    else Answered(out, k - 1) + Request(out, k) + [AssistantText("Turn " + Decimal(k) + " acknowledged.")]
  }

  function GeneratedConversation(out: ToolOutput, turn: nat): seq<Message> {
    Answered(out, if turn == 0 then 0 else turn - 1) + Request(out, turn)
  }

  method BuildConversation(out: ToolOutput, turn: nat) returns (messages: seq<Message>)
    ensures messages == GeneratedConversation(out, turn)
  {
    messages := [];
    var t := 1;
    while t < turn
      invariant 1 <= t && (t <= turn || (turn == 0 && t == 1))
      invariant messages == Answered(out, t - 1)
    {
      messages := messages + Request(out, t) + [AssistantText("Turn " + Decimal(t) + " acknowledged.")];
      t := t + 1;
    }
    messages := messages + Request(out, turn);
  }

  datatype Bill = Bill(original: nat, sent: nat, saved: nat, cacheRead: nat, cacheWrite: nat, uncached: nat) {
    function Plus(b: Bill): Bill {
      Bill(original + b.original, sent + b.sent, saved + b.saved,
           cacheRead + b.cacheRead, cacheWrite + b.cacheWrite, uncached + b.uncached)
    }
  }

  /** What one turn adds.  Baseline books no writes; the other modes book all new tokens
      both as uncached and as written. */
  function TurnBill(
    tok: Tokenizer, baseline: bool, messages: seq<Message>, previous: seq<Message>, forwarded: seq<Message>): Bill
  {
    var before, after := tok.CountMessages(messages), tok.CountMessages(forwarded);
    var common := SharedTokens(tok, previous, forwarded);
    var uncached := Clamp(after - common);
    Bill(before, after, if baseline then 0 else Clamp(before - after), common,
         if baseline then 0 else uncached, uncached)
  }

  /** Any forwarding of the turns; baseline forwards the conversation itself. */
  type Forwarding = nat -> seq<Message>

  function Sent(forward: Option<Forwarding>, out: ToolOutput, turn: nat): seq<Message> {
    if turn == 0 then []
    else match forward
         case None => GeneratedConversation(out, turn)
         case Some(f) => f(turn)
  }

  function BillUpTo(tok: Tokenizer, forward: Option<Forwarding>, out: ToolOutput, turns: nat): Bill {
    if turns == 0 then Bill(0, 0, 0, 0, 0, 0)
    else BillUpTo(tok, forward, out, turns - 1).Plus(
      TurnBill(tok, forward.None?, GeneratedConversation(out, turns),
               Sent(forward, out, turns - 1), Sent(forward, out, turns)))
  }

  class ModeBenchmarkResult {
    var bill: Bill

    constructor ()
      ensures bill == Bill(0, 0, 0, 0, 0, 0)
    {
      bill := Bill(0, 0, 0, 0, 0, 0);
    }
  }

  method SimulateMode(tok: Tokenizer, forward: Option<Forwarding>, out: ToolOutput, turns: nat)
    returns (result: ModeBenchmarkResult)
    ensures fresh(result) && result.bill == BillUpTo(tok, forward, out, turns)
  {
    hide GeneratedConversation, SharedTokens, Tokenizer.CountMessages;
    result := new ModeBenchmarkResult();
    var previous: seq<Message> := [];
    for turn := 1 to turns + 1
      invariant fresh(result)
      invariant previous == Sent(forward, out, turn - 1)
      invariant result.bill == BillUpTo(tok, forward, out, turn - 1)
    {
      var messages := BuildConversation(out, turn);
      var before: int := tok.CountMessages(messages);
      var forwarded := if forward.None? then messages else forward.value(turn);
      var after: int := tok.CountMessages(forwarded);
      var common := CommonPrefixTokens(previous, forwarded, tok);
      var uncached := Clamp(after - common);
      var compressed := forward.Some?;
      result.bill := result.bill.Plus(Bill(
        before, after, if compressed then Clamp(before - after) else 0, common,
        if compressed then uncached else 0, uncached));
      previous := forwarded;
    }
  }

  /** In every mode, with any forwarding, reads and uncached tokens make up what was sent,
      and what is missing against the original is booked as saved; baseline saves nothing. */
  lemma {:induction false} ReadsAndUncachedAreSent(
    tok: Tokenizer, forward: Option<Forwarding>, out: ToolOutput, turns: nat)
    ensures var b := BillUpTo(tok, forward, out, turns);
            && b.cacheRead + b.uncached == b.sent
            && b.original <= b.sent + b.saved
            && (forward.None? ==> b.original == b.sent && b.saved == 0)
  {
    hide GeneratedConversation;
    if turns > 0 {
      ReadsAndUncachedAreSent(tok, forward, out, turns - 1);
      SharedTokensBound(tok, Sent(forward, out, turns - 1), Sent(forward, out, turns));
    }
  }

  lemma ConversationGrows(out: ToolOutput, turn: nat)
    requires turn > 0
    ensures GeneratedConversation(out, turn) <= GeneratedConversation(out, turn + 1)
  {
    assert GeneratedConversation(out, turn + 1)
        == GeneratedConversation(out, turn)
           + ([AssistantText("Turn " + Decimal(turn) + " acknowledged.")] + Request(out, turn + 1));
  }

  /** Baseline sends every token uncached exactly once: over n turns, the tokens of the
      final conversation. */
  lemma {:induction false} BaselineUncachedIsFinalConversation(tok: Tokenizer, out: ToolOutput, turns: nat)
    requires tok.Additive()
    ensures BillUpTo(tok, None, out, turns).uncached == tok.Sum(Sent(None, out, turns))
  {
    if turns > 0 {
      BaselineUncachedIsFinalConversation(tok, out, turns - 1);
      var previous, current := Sent(None, out, turns - 1), Sent(None, out, turns);
      if turns > 1 {
        ConversationGrows(out, turns - 1);
      }
      SharedTokensOfPrefix(tok, previous, current);
      SharedTokensBound(tok, previous, current);
    }
  }

  /** The denominator of the hit rate. */
  function HitRateTotal(b: Bill): nat {
    b.cacheRead + b.cacheWrite + b.uncached
  }

  function HitRate(b: Bill): real {
    Percent(b.cacheRead, HitRateTotal(b))
  }

  /** The share of the sent tokens that was read from the cache. */
  function ReadShare(b: Bill): real {
    Percent(b.cacheRead, b.sent)
  }

  function Percent(part: nat, whole: nat): real {
    if whole == 0 then 0.0 else part as real / whole as real * 100.0
  }

  predicate SendsNothing(tok: Tokenizer, forward: Option<Forwarding>, out: ToolOutput, t: nat) {
    tok.CountMessages(Sent(forward, out, t)) == 0
  }

  predicate ReadsNothing(tok: Tokenizer, forward: Option<Forwarding>, out: ToolOutput, t: nat)
    requires t > 0
  {
    SharedTokens(tok, Sent(forward, out, t - 1), Sent(forward, out, t)) == 0
  }

  /** The first request that holds a token at all is new: no token was uncached only if no
      token was sent. */
  lemma {:induction false} NothingUncachedIff(tok: Tokenizer, forward: Option<Forwarding>, out: ToolOutput, turns: nat)
    ensures var b := BillUpTo(tok, forward, out, turns);
            && (b.uncached == 0 <==> b.sent == 0)
            && (b.sent == 0 <==> forall t :: 1 <= t <= turns ==> SendsNothing(tok, forward, out, t))
  {
    hide SendsNothing, BillUpTo;
    NothingBilled(tok, forward, out);
    if turns > 0 {
      NothingUncachedIff(tok, forward, out, turns - 1);
      NothingUncachedStep(tok, forward, out, turns);
      assert turns > 1 && BillUpTo(tok, forward, out, turns - 1).sent == 0
          ==> SendsNothing(tok, forward, out, turns - 1);
    }
  }

  lemma NothingBilled(tok: Tokenizer, forward: Option<Forwarding>, out: ToolOutput)
    ensures BillUpTo(tok, forward, out, 0) == Bill(0, 0, 0, 0, 0, 0)
    ensures tok.Sum(Sent(forward, out, 0)) == 0
  {
  }

  lemma NothingUncachedStep(tok: Tokenizer, forward: Option<Forwarding>, out: ToolOutput, t: nat)
    requires t > 0
    ensures var b, c := BillUpTo(tok, forward, out, t), BillUpTo(tok, forward, out, t - 1);
            && (b.sent == 0 <==> c.sent == 0 && SendsNothing(tok, forward, out, t))
            && b.uncached >= c.uncached && (SendsNothing(tok, forward, out, t) ==> b.uncached == c.uncached)
            && (t == 1 || SendsNothing(tok, forward, out, t - 1) ==>
                  b.uncached == c.uncached ==> SendsNothing(tok, forward, out, t))
  {
    hide GeneratedConversation, SharedTokens, Sent;
    SharedTokensBound(tok, Sent(forward, out, t - 1), Sent(forward, out, t));
    NothingBilled(tok, forward, out);
  }

  lemma {:induction false} NothingReadIff(tok: Tokenizer, forward: Option<Forwarding>, out: ToolOutput, turns: nat)
    ensures BillUpTo(tok, forward, out, turns).cacheRead == 0
            <==> forall t :: 1 <= t <= turns ==> ReadsNothing(tok, forward, out, t)
  {
    hide ReadsNothing, BillUpTo;
    NothingBilled(tok, forward, out);
    if turns > 0 {
      NothingReadIff(tok, forward, out, turns - 1);
      NothingReadStep(tok, forward, out, turns);
    }
  }

  lemma NothingReadStep(tok: Tokenizer, forward: Option<Forwarding>, out: ToolOutput, t: nat)
    requires t > 0
    ensures BillUpTo(tok, forward, out, t).cacheRead == 0
            <==> BillUpTo(tok, forward, out, t - 1).cacheRead == 0 && ReadsNothing(tok, forward, out, t)
  {
    hide GeneratedConversation, SharedTokens, Sent;
  }

  /** Outside baseline the new tokens are in the denominator twice, so it is the number of
      sent tokens exactly for baseline or when no request held a token at all. */
  lemma HitRateCountsNewTokensTwice(tok: Tokenizer, forward: Option<Forwarding>, out: ToolOutput, turns: nat)
    ensures var b := BillUpTo(tok, forward, out, turns);
            && b.cacheWrite == (if forward.None? then 0 else b.uncached)
            && HitRateTotal(b) == b.sent + b.cacheWrite
            && (HitRateTotal(b) == b.sent
                <==> forward.None? || forall t :: 1 <= t <= turns ==> SendsNothing(tok, forward, out, t))
  {
    hide BillUpTo, SendsNothing;
    ReadsAndUncachedAreSent(tok, forward, out, turns);
    WritesAreUncached(tok, forward, out, turns);
    NothingUncachedIff(tok, forward, out, turns);
  }

  /** So the hit rate never exceeds the share of the sent tokens that was read, and is that
      share exactly for baseline or when no request began like the one before it. */
  lemma HitRateIsShareIff(tok: Tokenizer, forward: Option<Forwarding>, out: ToolOutput, turns: nat)
    ensures var b := BillUpTo(tok, forward, out, turns);
            && HitRate(b) <= ReadShare(b)
            && (HitRate(b) == ReadShare(b)
                <==> forward.None? || forall t :: 1 <= t <= turns ==> ReadsNothing(tok, forward, out, t))
  {
    hide BillUpTo, ReadsNothing, SendsNothing, Percent;
    var b := BillUpTo(tok, forward, out, turns);
    ReadsAndUncachedAreSent(tok, forward, out, turns);
    HitRateCountsNewTokensTwice(tok, forward, out, turns);
    NothingUncachedIff(tok, forward, out, turns);
    NothingReadIff(tok, forward, out, turns);
    PercentOfMore(b.cacheRead, b.sent, b.cacheWrite);
  }

  lemma PercentOfMore(part: nat, whole: nat, more: nat)
    requires part <= whole
    ensures Percent(part, whole + more) <= Percent(part, whole)
    ensures Percent(part, whole + more) == Percent(part, whole) <==> part == 0 || more == 0
  {
    if whole > 0 {
      var p, w, m := part as real, whole as real, more as real;
      assert (whole + more) as real == w + m;
      var x, y := p / w, p / (w + m);
      assert x * w == p && y * (w + m) == p && y >= 0.0;
      assert (x - y) * w == y * m;
      if part > 0 && more > 0 {
        assert y > 0.0;
        assert y * m > 0.0;
      } else {
        assert y * m == 0.0;
      }
    }
  }

  lemma {:induction false} WritesAreUncached(tok: Tokenizer, forward: Option<Forwarding>, out: ToolOutput, turns: nat)
    ensures var b := BillUpTo(tok, forward, out, turns);
            b.cacheWrite == if forward.None? then 0 else b.uncached
  {
    hide SharedTokens, GeneratedConversation;
    if turns > 0 {
      WritesAreUncached(tok, forward, out, turns - 1);
    }
  }

  // ---------------------------------------------------------------- every field of the bill

  ghost function OriginalOf(tok: Tokenizer, out: ToolOutput): nat -> nat {
    (i: nat) => tok.CountMessages(GeneratedConversation(out, i + 1))
  }

  ghost function SentOf(tok: Tokenizer, forward: Option<Forwarding>, out: ToolOutput): nat -> nat {
    (i: nat) => tok.CountMessages(Sent(forward, out, i + 1))
  }

  ghost function ReadOf(tok: Tokenizer, forward: Option<Forwarding>, out: ToolOutput): nat -> nat {
    (i: nat) => SharedTokens(tok, Sent(forward, out, i), Sent(forward, out, i + 1))
  }

  function Less(a: nat, b: nat): nat {
    if a < b then b - a else 0
  }

  /** What a turn sends less than its conversation, and what it sends more. */
  ghost function ShrunkOf(tok: Tokenizer, forward: Option<Forwarding>, out: ToolOutput): nat -> nat {
    (i: nat) => Less(SentOf(tok, forward, out)(i), OriginalOf(tok, out)(i))
  }

  ghost function GrownOf(tok: Tokenizer, forward: Option<Forwarding>, out: ToolOutput): nat -> nat {
    (i: nat) => Less(OriginalOf(tok, out)(i), SentOf(tok, forward, out)(i))
  }

  /** Original, sent and read tokens are sums over the turns; saved are the tokens of the turns that
      were sent shorter than their conversation, turn by turn. */
  lemma {:induction false} BillFields(tok: Tokenizer, forward: Option<Forwarding>, out: ToolOutput, turns: nat)
    ensures var b := BillUpTo(tok, forward, out, turns);
            && b.original == SumUpTo(OriginalOf(tok, out), turns)
            && b.sent == SumUpTo(SentOf(tok, forward, out), turns)
            && b.cacheRead == SumUpTo(ReadOf(tok, forward, out), turns)
            && b.saved == SumUpTo(ShrunkOf(tok, forward, out), turns)
            && b.original + SumUpTo(GrownOf(tok, forward, out), turns) == b.sent + b.saved
  {
    hide BillUpTo, OriginalOf, SentOf, ReadOf, ShrunkOf, GrownOf;
    NothingBilled(tok, forward, out);
    if turns > 0 {
      BillFields(tok, forward, out, turns - 1);
      BillStep(tok, forward, out, turns - 1);
    }
  }

  lemma BillStep(tok: Tokenizer, forward: Option<Forwarding>, out: ToolOutput, i: nat)
    ensures var b, c := BillUpTo(tok, forward, out, i + 1), BillUpTo(tok, forward, out, i);
            && b.original == c.original + OriginalOf(tok, out)(i)
            && b.sent == c.sent + SentOf(tok, forward, out)(i)
            && b.cacheRead == c.cacheRead + ReadOf(tok, forward, out)(i)
            && b.saved == c.saved + ShrunkOf(tok, forward, out)(i)
            && OriginalOf(tok, out)(i) + GrownOf(tok, forward, out)(i)
               == SentOf(tok, forward, out)(i) + ShrunkOf(tok, forward, out)(i)
  {
    hide GeneratedConversation, SharedTokens, Tokenizer.CountMessages, TurnBill, Sent, Less;
    var messages, sent := GeneratedConversation(out, i + 1), Sent(forward, out, i + 1);
    BaselineSends(out, i + 1);
    TurnBillFields(tok, forward.None?, messages, Sent(forward, out, i), sent);
    LessEitherWay(tok.CountMessages(messages), tok.CountMessages(sent));
  }

  lemma BaselineSends(out: ToolOutput, t: nat)
    ensures t > 0 ==> Sent(None, out, t) == GeneratedConversation(out, t)
  {
  }

  lemma LessEitherWay(a: nat, b: nat)
    ensures a + Less(a, b) == b + Less(b, a)
  {
  }

  lemma TurnBillFields(
    tok: Tokenizer, baseline: bool, messages: seq<Message>, previous: seq<Message>, forwarded: seq<Message>)
    requires baseline ==> forwarded == messages
    ensures var b, before, after := TurnBill(tok, baseline, messages, previous, forwarded),
              tok.CountMessages(messages), tok.CountMessages(forwarded);
            && b.original == before && b.sent == after && b.cacheRead == SharedTokens(tok, previous, forwarded)
            && b.saved == Less(after, before)
  {
    hide SharedTokens, Tokenizer.CountMessages;
  }

  /** A percentage of a total. */
  lemma HitRateMeaning(b: Bill)
    ensures HitRate(b) * HitRateTotal(b) as real == 100.0 * if HitRateTotal(b) == 0 then 0.0 else b.cacheRead as real
    ensures HitRateTotal(b) == 0 ==> HitRate(b) == 0.0
  {
  }

  // ---------------------------------------------------------------- the generated conversation

  lemma {:induction false} AnsweredShape(out: ToolOutput, k: nat, j: nat)
    requires 1 <= j <= k
    ensures |Answered(out, k)| == 3 * k
    ensures Answered(out, k)[3 * j - 3..3 * j - 1] == Request(out, j)
    ensures Answered(out, k)[3 * j - 1] == Message("assistant", Text("Turn " + Decimal(j) + " acknowledged."), map[])
  {
    hide Decimal;
    if k == 1 {
      assert Answered(out, 0) == [];
    } else {
      AnsweredShape(out, k - 1, if j < k then j else j - 1);
      var front := Answered(out, k - 1);
      if j < k {
        assert Answered(out, k)[3 * j - 3..3 * j - 1] == front[3 * j - 3..3 * j - 1];
      }
    }
  }

  /** Turn j of the conversation asks about the tool output of turn j and hands it over; all but
      the last are acknowledged. */
  lemma ConversationShape(out: ToolOutput, turn: nat, j: nat)
    requires 1 <= j <= turn
    ensures var c := GeneratedConversation(out, turn);
            && |c| == 3 * turn - 1
            && c[3 * j - 3] == Message("user", Text("Analyze tool output turn " + Decimal(j)
                                                    + " and summarize anomalies."), map[])
            && c[3 * j - 2] == Message("user", Blocks([Dict("tool_result", out(j), false,
                                                            map["tool_use_id" := "tool-" + Decimal(j)])]), map[])
            && (j < turn ==> c[3 * j - 1] == Message("assistant", Text("Turn " + Decimal(j) + " acknowledged."), map[]))
  {
    hide Decimal, Answered;
    var c, front := GeneratedConversation(out, turn), Answered(out, turn - 1);
    if turn == 1 {
      NothingAnswered(out);
    } else {
      AnsweredShape(out, turn - 1, if j < turn then j else 1);
      if j < turn {
        assert c[3 * j - 3] == front[3 * j - 3..3 * j - 1][0] && c[3 * j - 2] == front[3 * j - 3..3 * j - 1][1];
      }
    }
  }

  lemma NothingAnswered(out: ToolOutput)
    ensures Answered(out, 0) == [] && GeneratedConversation(out, 0) == Request(out, 0)
  {
  }
}
