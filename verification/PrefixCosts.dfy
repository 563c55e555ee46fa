/** Costs of runs whose requests only grow, as in baseline and in delta replay: a token that
    was sent once is sent again on every later turn. */
module PrefixCosts {
  import opened Messages
  import opened Tokens
  import opened Pricing
  import opened Replay
  import opened ChargeLaws
  import opened CacheMode
  import opened CostLaws
  import opened Loader
  import opened Stickiness

  // ---------------------------------------------------------------- what a staying token is worth

  /** What caching saves on a token that turn i sends and the cache does not hold: a loss if it
      is written for the next turn, otherwise nothing. */
  function Entered(s: Settings, turns: seq<ReplayTurn>, i: nat): real
    requires i < |turns|
  {
    if i + 1 < |turns| && InTime(s, turns, i + 1) then (1.0 - s.cacheWriteMultiplier) * BaseAt(s, turns, i) else 0.0
  }

  /** And on a token that the turn before had sent too. */
  function Found(s: Settings, turns: seq<ReplayTurn>, i: nat): real
    requires i < |turns|
  {
    if i > 0 && InTime(s, turns, i) then 0.9 * BaseAt(s, turns, i) else Entered(s, turns, i)
  }

  function TokensOf(s: Settings, turns: seq<ReplayTurn>, i: nat, x: Message): real
    requires i < |turns|
  {
    s.tokenizer(turns[i].model).message(x) as real
  }

  /** What caching saves from turn i on, on a message that is already there. */
  function Later(s: Settings, turns: seq<ReplayTurn>, i: nat, x: Message): real
    requires i <= |turns|
    decreases |turns| - i
  {
    if i == |turns| then 0.0 else Found(s, turns, i) * TokensOf(s, turns, i, x) + Later(s, turns, i + 1, x)
  }

  /** What it saves over the whole session on a message that comes in at turn i and stays. */
  function Worth(s: Settings, turns: seq<ReplayTurn>, i: nat, x: Message): real
    requires i < |turns|
  {
    Entered(s, turns, i) * TokensOf(s, turns, i, x) + Later(s, turns, i + 1, x)
  }

  function LaterOf(s: Settings, turns: seq<ReplayTurn>, i: nat, f: seq<Message>, k: nat): real
    requires i <= |turns| && k <= |f|
  {
    if k == 0 then 0.0 else LaterOf(s, turns, i, f, k - 1) + Later(s, turns, i, f[k - 1])
  }

  /** Messages lo..hi-1 of f come in at turn i. */
  function WorthOf(s: Settings, turns: seq<ReplayTurn>, i: nat, f: seq<Message>, lo: nat, hi: nat): real
    requires i < |turns| && lo <= hi <= |f|
    decreases hi
  {
    if lo == hi then 0.0 else WorthOf(s, turns, i, f, lo, hi - 1) + Worth(s, turns, i, f[hi - 1])
  }

  /** The worth of everything that comes in at turn i or later. */
  function NewWorth(s: Settings, run: Run, i: nat): real
    requires i <= |run.turns| && PrefixPreserving(run)
    decreases |run.turns| - i
  {
    if i == |run.turns| then 0.0
    else WorthOf(s, run.turns, i, run.forwarded[i], |PreviousForwarded(run, i)|, |run.forwarded[i]|)
         + NewWorth(s, run, i + 1)
  }

  // ---------------------------------------------------------------- the saving of a growing run

  /** The tokens of turn i: those of the request before it, and those of the whole request. */
  function OldTokens(s: Settings, run: Run, i: nat): nat
    requires i < |run.turns| && PrefixPreserving(run)
  {
    TokenizerAt(s, run, i).SumFirst(run.forwarded[i], |PreviousForwarded(run, i)|)
  }

  lemma SavingCases(base: real, m: real, a: real, b: real)
    ensures base * (0.9 * a - (m - 1.0) * (b - a)) == 0.9 * base * a + (1.0 - m) * base * (b - a)
    ensures base * (0.9 * a - (m - 1.0) * 0.0) == 0.9 * base * a + 0.0 * (b - a)
    ensures base * (0.9 * 0.0 - (m - 1.0) * b) == (1.0 - m) * base * a + (1.0 - m) * base * (b - a)
    ensures base * (0.9 * 0.0 - (m - 1.0) * 0.0) == 0.0 * a + 0.0 * (b - a)
  {
  }

  lemma TurnSavingOfPrefixRun(s: Settings, run: Run, i: nat)
    requires i < |run.turns| && PrefixPreserving(run)
    ensures OldTokens(s, run, i) <= RequestTokens(s, run, i)
    ensures TurnSaving(s, run, i)
            == Found(s, run.turns, i) * OldTokens(s, run, i) as real
               + Entered(s, run.turns, i) * (RequestTokens(s, run, i) as real - OldTokens(s, run, i) as real)
  {
    hide ChargeAt, BaseAt, OldTokens, RequestTokens, PrefixPreserving;
    PrefixReadsAndWrites(s, run, i);
    SavingCases(BaseAt(s, run.turns, i), s.cacheWriteMultiplier,
                OldTokens(s, run, i) as real, RequestTokens(s, run, i) as real);
  }

  lemma PrefixReadsAndWrites(s: Settings, run: Run, i: nat)
    requires i < |run.turns| && PrefixPreserving(run)
    ensures var c, a, b := ChargeAt(s, run, i), OldTokens(s, run, i), RequestTokens(s, run, i);
            var next := i + 1 < |run.turns| && InTime(s, run.turns, i + 1);
            && a <= b
            && (i > 0 && InTime(s, run.turns, i) ==> c.read == a && c.write == if next then b - a else 0)
            && (!(i > 0 && InTime(s, run.turns, i)) ==> c.read == 0 && c.write == if next then b else 0)
  {
    hide ChargeAt;
    TurnOfPrefixRun(s, run, i);
    var t, f, prev := TokenizerAt(s, run, i), run.forwarded[i], PreviousForwarded(run, i);
    SumFirstAgree(t, prev, f, |prev|);
    SumFirstMonotone(t, f, |prev|, |f|);
  }

  lemma TimesMore(a: real, m: nat, n: nat)
    ensures a * (m + n) as real == a * m as real + a * n as real
  {
    Distribute(a, m, n);
  }

  lemma {:induction false} LaterOfStep(s: Settings, turns: seq<ReplayTurn>, i: nat, f: seq<Message>, k: nat)
    requires i < |turns| && k <= |f|
    ensures LaterOf(s, turns, i, f, k)
            == Found(s, turns, i) * s.tokenizer(turns[i].model).SumFirst(f, k) as real + LaterOf(s, turns, i + 1, f, k)
  {
    hide Found;
    if k > 0 {
      LaterOfStep(s, turns, i, f, k - 1);
      var t := s.tokenizer(turns[i].model);
      TimesMore(Found(s, turns, i), t.SumFirst(f, k - 1), t.message(f[k - 1]));
    }
  }

  lemma {:induction false} WorthOfStep(
    s: Settings, turns: seq<ReplayTurn>, i: nat, f: seq<Message>, lo: nat, hi: nat)
    requires i < |turns| && lo <= hi <= |f|
    ensures var t := s.tokenizer(turns[i].model);
            WorthOf(s, turns, i, f, lo, hi)
            == Entered(s, turns, i) * (t.SumFirst(f, hi) as real - t.SumFirst(f, lo) as real)
               + LaterOf(s, turns, i + 1, f, hi) - LaterOf(s, turns, i + 1, f, lo)
    decreases hi
  {
    hide Entered, Later;
    var e, t := Entered(s, turns, i), s.tokenizer(turns[i].model);
    if lo == hi {
      assert e * (t.SumFirst(f, hi) as real - t.SumFirst(f, lo) as real) == 0.0;
    } else {
      WorthOfStep(s, turns, i, f, lo, hi - 1);
      OneMoreOf(e, t.SumFirst(f, lo), t.SumFirst(f, hi - 1), t.message(f[hi - 1]));
      assert t.SumFirst(f, hi) == t.SumFirst(f, hi - 1) + t.message(f[hi - 1]);
    }
  }

  lemma OneMoreOf(e: real, lo: nat, hi: nat, more: nat)
    ensures e * ((hi + more) as real - lo as real) == e * (hi as real - lo as real) + e * more as real
  {
    assert (hi + more) as real == hi as real + more as real;
  }

  lemma {:induction false} LaterOfAgree(
    s: Settings, turns: seq<ReplayTurn>, i: nat, f: seq<Message>, g: seq<Message>, k: nat)
    requires i <= |turns| && f <= g && k <= |f|
    ensures LaterOf(s, turns, i, f, k) == LaterOf(s, turns, i, g, k)
  {
    hide Later;
    if k > 0 {
      LaterOfAgree(s, turns, i, f, g, k - 1);
    }
  }

  lemma SavingStep(s: Settings, run: Run, i: nat)
    requires i < |run.turns| && PrefixPreserving(run)
    ensures var prev, f := PreviousForwarded(run, i), run.forwarded[i];
            LaterOf(s, run.turns, i, prev, |prev|) + WorthOf(s, run.turns, i, f, |prev|, |f|)
            == TurnSaving(s, run, i) + LaterOf(s, run.turns, i + 1, f, |f|)
  {
    hide TurnSaving, Found, Entered, LaterOf, WorthOf;
    var prev, f := PreviousForwarded(run, i), run.forwarded[i];
    TurnSavingOfPrefixRun(s, run, i);
    LaterOfAgree(s, run.turns, i, prev, f, |prev|);
    LaterOfStep(s, run.turns, i, f, |prev|);
    WorthOfStep(s, run.turns, i, f, |prev|, |f|);
  }

  lemma {:induction false} SavingFrom(s: Settings, run: Run, i: nat)
    requires i <= |run.turns| && PrefixPreserving(run)
    ensures SavingUpTo(s, run, |run.turns|)
            == SavingUpTo(s, run, i) + NewWorth(s, run, i)
               + LaterOf(s, run.turns, i, PreviousForwarded(run, i), |PreviousForwarded(run, i)|)
    decreases |run.turns| - i
  {
    hide TurnSaving, WorthOf, PrefixPreserving;
    if i < |run.turns| {
      hide Later;
      SavingFrom(s, run, i + 1);
      SavingStep(s, run, i);
    } else {
      NothingLater(s, run.turns, PreviousForwarded(run, i), |PreviousForwarded(run, i)|);
    }
  }

  lemma {:induction false} NothingLater(s: Settings, turns: seq<ReplayTurn>, f: seq<Message>, k: nat)
    requires k <= |f|
    ensures LaterOf(s, turns, |turns|, f, k) == 0.0
  {
    if k > 0 {
      NothingLater(s, turns, f, k - 1);
    }
  }

  /** What a growing run saves over sending everything uncached: the worth of each message,
      counted once, when it comes in. */
  lemma PrefixSavingIsExact(s: Settings, run: Run)
    requires PrefixPreserving(run)
    ensures UncachedCost(s, run, |run.turns|) - InputCost(ChargesBetween(s, run, 0, |run.turns|))
            == NewWorth(s, run, 0)
  {
    hide NewWorth, UncachedCost, InputCost, ChargesBetween, PrefixPreserving;
    SavingIsExact(s, run, |run.turns|);
    SavingFrom(s, run, 0);
  }

  // ---------------------------------------------------------------- the exact bound

  ghost predicate StayingPays(s: Settings, turns: seq<ReplayTurn>) {
    forall i, x: Message :: 0 <= i < |turns| ==> Worth(s, turns, i, x) >= 0.0
  }

  lemma {:induction false} WorthOfPays(s: Settings, turns: seq<ReplayTurn>, i: nat, f: seq<Message>, lo: nat, hi: nat)
    requires i < |turns| && lo <= hi <= |f| && StayingPays(s, turns)
    ensures WorthOf(s, turns, i, f, lo, hi) >= 0.0
    decreases hi
  {
    hide Worth;
    if lo < hi {
      WorthOfPays(s, turns, i, f, lo, hi - 1);
    }
  }

  lemma {:induction false} NewWorthPays(s: Settings, run: Run, i: nat)
    requires i <= |run.turns| && PrefixPreserving(run) && StayingPays(s, run.turns)
    ensures NewWorth(s, run, i) >= 0.0
    decreases |run.turns| - i
  {
    hide WorthOf, StayingPays;
    if i < |run.turns| {
      NewWorthPays(s, run, i + 1);
      WorthOfPays(s, run.turns, i, run.forwarded[i], |PreviousForwarded(run, i)|, |run.forwarded[i]|);
    }
  }

  /** Message x alone, from turn i on. */
  function Staying(turns: seq<ReplayTurn>, i: nat, x: Message): (run: Run)
    ensures run.turns == turns && PrefixPreserving(run)
  {
    Trace(turns, seq(|turns|, j requires 0 <= j < |turns| => if j < i then [] else [x]))
  }

  lemma StayingStep(s: Settings, turns: seq<ReplayTurn>, i: nat, x: Message, k: nat)
    requires i < |turns| && k < |turns|
    ensures var run := Staying(turns, i, x);
            var prev, f := PreviousForwarded(run, k), run.forwarded[k];
            |prev| <= |f| && WorthOf(s, turns, k, f, |prev|, |f|) == if k == i then Worth(s, turns, i, x) else 0.0
  {
    hide Worth;
    var run := Staying(turns, i, x);
    assert |PreviousForwarded(run, k)| == if k <= i then 0 else 1;
    assert run.forwarded[k] == if k < i then [] else [x];
    assert WorthOf(s, turns, k, [x], 0, 1) == WorthOf(s, turns, k, [x], 0, 0) + Worth(s, turns, k, x);
  }

  lemma {:induction false} WorthOfStaying(s: Settings, turns: seq<ReplayTurn>, i: nat, x: Message, k: nat)
    requires i < |turns| && k <= |turns|
    ensures NewWorth(s, Staying(turns, i, x), k) == if k <= i then Worth(s, turns, i, x) else 0.0
    decreases |turns| - k
  {
    hide Worth, WorthOf;
    if k < |turns| {
      WorthOfStaying(s, turns, i, x, k + 1);
      StayingStep(s, turns, i, x, k);
    }
  }

  lemma StayingPaysAlone(s: Settings, turns: seq<ReplayTurn>, i: nat, x: Message)
    requires i < |turns|
    ensures CachingPays(s, Staying(turns, i, x)) <==> Worth(s, turns, i, x) >= 0.0
  {
    hide Worth, NewWorth, UncachedCost, InputCost, ChargesBetween;
    PrefixSavingIsExact(s, Staying(turns, i, x));
    WorthOfStaying(s, turns, i, x, 0);
  }

  /** Among the runs whose requests only grow, caching never costs more than sending everything
      uncached iff no message that comes in and stays is worth less than nothing, with any
      models, prices, tokenizers and gaps. */
  lemma PrefixCostBoundIff(s: Settings, turns: seq<ReplayTurn>)
    ensures (forall run: Run :: run.turns == turns && PrefixPreserving(run) ==> CachingPays(s, run))
            <==> StayingPays(s, turns)
  {
    hide Worth, NewWorth, CachingPays, PrefixPreserving;
    if StayingPays(s, turns) {
      forall run: Run | run.turns == turns && PrefixPreserving(run)
        ensures CachingPays(s, run)
      {
        GrowingRunPays(s, run);
      }
    } else {
      var i, x: Message :| 0 <= i < |turns| && !(Worth(s, turns, i, x) >= 0.0);
      StayingPaysAlone(s, turns, i, x);
    }
  }

  lemma GrowingRunPays(s: Settings, run: Run)
    requires PrefixPreserving(run) && StayingPays(s, run.turns)
    ensures CachingPays(s, run)
  {
    hide NewWorth, StayingPays, UncachedCost, InputCost, ChargesBetween, PrefixPreserving;
    PrefixSavingIsExact(s, run);
    NewWorthPays(s, run, 0);
  }

  // ---------------------------------------------------------------- one tokenizer

  function UnitLater(s: Settings, turns: seq<ReplayTurn>, i: nat): real
    requires i <= |turns|
    decreases |turns| - i
  {
    if i == |turns| then 0.0 else Found(s, turns, i) + UnitLater(s, turns, i + 1)
  }

  /** The worth of a single token. */
  function UnitWorth(s: Settings, turns: seq<ReplayTurn>, i: nat): real
    requires i < |turns|
  {
    Entered(s, turns, i) + UnitLater(s, turns, i + 1)
  }

  lemma {:induction false} LaterIsUnits(s: Settings, turns: seq<ReplayTurn>, t: Tokenizer, i: nat, x: Message)
    requires i <= |turns| && forall j :: 0 <= j < |turns| ==> s.tokenizer(turns[j].model) == t
    ensures Later(s, turns, i, x) == UnitLater(s, turns, i) * t.message(x) as real
    decreases |turns| - i
  {
    hide Found;
    var n := t.message(x) as real;
    if i == |turns| {
      assert 0.0 * n == 0.0;
    } else {
      LaterIsUnits(s, turns, t, i + 1, x);
      assert Later(s, turns, i, x) == Found(s, turns, i) * n + UnitLater(s, turns, i + 1) * n;
      SumTimes(Found(s, turns, i), UnitLater(s, turns, i + 1), n);
      assert UnitLater(s, turns, i) == Found(s, turns, i) + UnitLater(s, turns, i + 1);
    }
  }

  lemma SumTimes(a: real, b: real, n: real)
    ensures (a + b) * n == a * n + b * n
  {
  }

  lemma PositiveTimes(a: real, n: nat)
    ensures a >= 0.0 ==> a * n as real >= 0.0
    ensures n > 0 && a * n as real >= 0.0 ==> a >= 0.0
  {
    if a < 0.0 && n > 0 {
      assert (0.0 - a) * n as real > 0.0;
      assert a * n as real == 0.0 - (0.0 - a) * n as real;
    }
  }

  /** With one tokenizer that counts at all, the condition is about prices and gaps alone. */
  lemma StayingPaysOneTokenizer(s: Settings, turns: seq<ReplayTurn>, t: Tokenizer, y: Message)
    requires forall j :: 0 <= j < |turns| ==> s.tokenizer(turns[j].model) == t
    requires t.message(y) > 0
    ensures StayingPays(s, turns) <==> forall i :: 0 <= i < |turns| ==> UnitWorth(s, turns, i) >= 0.0
  {
    hide Worth, UnitWorth;
    forall i, x: Message | 0 <= i < |turns|
      ensures UnitWorth(s, turns, i) >= 0.0 ==> Worth(s, turns, i, x) >= 0.0
    {
      WorthIsUnits(s, turns, t, i, x);
      PositiveTimes(UnitWorth(s, turns, i), t.message(x));
    }
    forall i | 0 <= i < |turns|
      ensures Worth(s, turns, i, y) >= 0.0 ==> UnitWorth(s, turns, i) >= 0.0
    {
      WorthIsUnits(s, turns, t, i, y);
      PositiveTimes(UnitWorth(s, turns, i), t.message(y));
    }
  }

  lemma WorthIsUnits(s: Settings, turns: seq<ReplayTurn>, t: Tokenizer, i: nat, x: Message)
    requires i < |turns| && forall j :: 0 <= j < |turns| ==> s.tokenizer(turns[j].model) == t
    ensures Worth(s, turns, i, x) == UnitWorth(s, turns, i) * t.message(x) as real
  {
    hide Entered, UnitLater, Later;
    LaterIsUnits(s, turns, t, i + 1, x);
    SumTimes(Entered(s, turns, i), UnitLater(s, turns, i + 1), t.message(x) as real);
  }

  /** The base rates of the turns after i that are reached without a gap over the TTL. */
  function LaterBases(s: Settings, turns: seq<ReplayTurn>, i: nat): real
    requires i < |turns|
    decreases |turns| - i
  {
    if i + 1 < |turns| && InTime(s, turns, i + 1)
    then BaseAt(s, turns, i + 1) + LaterBases(s, turns, i + 1) else 0.0
  }

  /** The surcharge of a token written at turn i is covered by reading it on those turns. */
  predicate CoveredInSegment(s: Settings, turns: seq<ReplayTurn>, i: nat)
    requires i < |turns|
  {
    Entered(s, turns, i) + 0.9 * LaterBases(s, turns, i) >= 0.0
  }

  lemma {:induction false} SegmentsCover(s: Settings, turns: seq<ReplayTurn>, i: nat)
    requires i < |turns| && forall j :: i < j < |turns| ==> CoveredInSegment(s, turns, j)
    ensures UnitLater(s, turns, i + 1) >= 0.9 * LaterBases(s, turns, i)
    decreases |turns| - i
  {
    hide BaseAt, Entered;
    if i + 1 < |turns| {
      SegmentsCover(s, turns, i + 1);
      assert CoveredInSegment(s, turns, i + 1);
    }
  }

  /** It is enough that every token pays within the segment in which it is written. */
  lemma SegmentConditionSuffices(s: Settings, turns: seq<ReplayTurn>, t: Tokenizer, y: Message)
    requires forall j :: 0 <= j < |turns| ==> s.tokenizer(turns[j].model) == t
    requires t.message(y) > 0
    requires forall i :: 0 <= i < |turns| ==> CoveredInSegment(s, turns, i)
    ensures StayingPays(s, turns)
  {
    hide StayingPays, Entered, UnitLater, LaterBases;
    StayingPaysOneTokenizer(s, turns, t, y);
    forall i | 0 <= i < |turns|
      ensures UnitWorth(s, turns, i) >= 0.0
    {
      SegmentsCover(s, turns, i);
      assert CoveredInSegment(s, turns, i);
    }
  }

  lemma {:induction false} OneSegmentLater(s: Settings, turns: seq<ReplayTurn>, i: nat)
    requires i < |turns| && forall j :: i < j < |turns| ==> InTime(s, turns, j)
    ensures UnitLater(s, turns, i + 1) == 0.9 * LaterBases(s, turns, i)
    decreases |turns| - i
  {
    hide BaseAt, Entered, InTime;
    if i + 1 < |turns| {
      OneSegmentLater(s, turns, i + 1);
    }
  }

  /** And necessary when the session has no gap over the TTL. */
  lemma SegmentConditionIff(s: Settings, turns: seq<ReplayTurn>, t: Tokenizer, y: Message)
    requires forall j :: 0 <= j < |turns| ==> s.tokenizer(turns[j].model) == t
    requires t.message(y) > 0
    requires forall j :: 0 < j < |turns| ==> InTime(s, turns, j)
    ensures StayingPays(s, turns) <==> forall i :: 0 <= i < |turns| ==> CoveredInSegment(s, turns, i)
  {
    hide StayingPays, Entered, UnitLater, LaterBases, InTime;
    StayingPaysOneTokenizer(s, turns, t, y);
    forall i | 0 <= i < |turns|
      ensures UnitWorth(s, turns, i) >= 0.0 <==> CoveredInSegment(s, turns, i)
    {
      OneSegmentLater(s, turns, i);
    }
  }

  // ---------------------------------------------------------------- a dear turn and n cheap ones

  function DearThenCheap(dear: string, cheap: string, u: Message, a: Message, n: nat): (turns: seq<ReplayTurn>)
    ensures |turns| == n + 1
    ensures forall j :: 0 <= j <= n ==> turns[j].model == (if j == 0 then dear else cheap) && turns[j].timestamp == 0
  {
    seq(n + 1, j requires 0 <= j < n + 1 => ReplayTurn("", if j == 0 then dear else cheap, 0, [u], a, 0, 0, 0, 0))
  }

  lemma TightBase(s: Settings, turns: seq<ReplayTurn>, i: nat, price: Dollars)
    requires i < |turns| && s.pricing(turns[i].model) == Some(Price(price, 0.0))
    ensures BaseAt(s, turns, i) * 1000000.0 == price
  {
  }

  lemma {:induction false} CheapLater(s: Settings, turns: seq<ReplayTurn>, n: nat, i: nat)
    requires i <= n && |turns| == n + 1
    requires forall j :: 0 < j <= n ==> InTime(s, turns, j) && BaseAt(s, turns, j) * 1000000.0 == 1.0
    ensures LaterBases(s, turns, i) * 1000000.0 == (n - i) as real
    decreases n - i
  {
    hide InTime, BaseAt;
    if i < n {
      CheapLater(s, turns, n, i + 1);
      assert (n - i) as real == (n - i - 1) as real + 1.0;
    }
  }

  /** A 15-dollar turn followed by n 1-dollar turns, at the default multiplier: reading again and
      again makes up for the dear write from five cheap turns on. */
  lemma DearThenCheapIff(dear: string, cheap: string, u: Message, a: Message, n: nat)
    requires dear != cheap
    ensures var s, turns := TightSettings(1.25, dear, 15.0, 1.0), DearThenCheap(dear, cheap, u, a, n);
            && ((forall run: Run :: run.turns == turns && PrefixPreserving(run) ==> CachingPays(s, run))
                <==> n == 0 || n >= 5)
            && (PriceCondition(s, turns) ==> n == 0)
  {
    hide CachingPays, PrefixPreserving, BaseAt, LaterBases, StayingPays;
    var s, turns := TightSettings(1.25, dear, 15.0, 1.0), DearThenCheap(dear, cheap, u, a, n);
    var t := s.tokenizer(dear);
    PrefixCostBoundIff(s, turns);
    SegmentConditionIff(s, turns, t, u);
    TightBase(s, turns, 0, 15.0);
    forall j | 0 < j <= n
      ensures BaseAt(s, turns, j) * 1000000.0 == 1.0
    {
      TightBase(s, turns, j, 1.0);
    }
    forall i | 0 <= i <= n
      ensures CoveredInSegment(s, turns, i) <==> i > 0 || n == 0 || n >= 5
    {
      CheapLater(s, turns, n, i);
    }
    assert CoveredInSegment(s, turns, 0) <==> n == 0 || n >= 5;
    if n > 0 {
      assert InTime(s, turns, 1);
      assert 0.25 * BaseAt(s, turns, 0) * 1.0 > 0.9 * BaseAt(s, turns, 1) * 1.0;
      assert !WritePaysOff(s, turns, 1) by {
        assert s.tokenizer(turns[0].model).message(u) == s.tokenizer(turns[1].model).message(u) == 1;
      }
    }
  }

  // ---------------------------------------------------------------- a question to each of two models

  function TwoModelTranscript(first: string, second: string, u: Message, a: Message): seq<Event> {
    [UserEvent(u), SmallAnswer("r0", first, ContentFor(a)), UserEvent(u), SmallAnswer("r1", second, ContentFor(a))]
  }

  lemma TwoModelSession(key: BlockKey, first: string, second: string, u: Message, a: Message)
    requires LoaderAnswer(key, a)
    ensures SessionTurns(key, TwoModelTranscript(first, second, u, a))
            == [SmallTurn("r0", first, [u], a), SmallTurn("r1", second, [u], a)]
  {
    hide TurnsFrom, Accepted, RunAt, RunEnd, LoaderAnswer;
    var e := TwoModelTranscript(first, second, u, a);
    NothingSkipped(e);
    UserStep(key, e, 0, u);
    SmallRun(key, e, 1, "r0", first, a, [u]);
    UserStep(key, e, 2, u);
    SmallRun(key, e, 3, "r1", second, a, [u]);
    AllClosed(key, e, []);
  }

  lemma {:induction false} NothingAtTheEnd(s: Settings, turns: seq<ReplayTurn>, f: seq<Message>, lo: nat, hi: nat)
    requires turns != [] && lo <= hi <= |f|
    ensures WorthOf(s, turns, |turns| - 1, f, lo, hi) == 0.0
    decreases hi
  {
    if lo < hi {
      NothingAtTheEnd(s, turns, f, lo, hi - 1);
    }
  }

  /** In baseline and in delta replay, whatever the pipeline, a session that puts one question to
      each of two models meets the bound iff the prices meet the condition of neighbours. */
  lemma TwoQuestionsMeetTheBoundIff(
    mode: Mode, key: BlockKey, first: string, second: string, u: Message, a: Message,
    multiplier: real, pa: Dollars, pb: Dollars)
    requires !mode.Token? && first != second && u.role == "user" && LoaderAnswer(key, a)
    ensures var turns := SessionTurns(key, TwoModelTranscript(first, second, u, a));
            var s := TightSettings(multiplier, first, pa, pb);
            CachingPays(s, RunOf(mode, turns)) <==> (multiplier - 1.0) * pa <= 0.9 * pb
  {
    hide SessionTurns, TwoModelTranscript, LoaderAnswer;
    TwoModelSession(key, first, second, u, a);
    var turns := [SmallTurn("r0", first, [u], a), SmallTurn("r1", second, [u], a)];
    var s := TightSettings(multiplier, first, pa, pb);
    TwoTurnWorth(s, turns, u, multiplier, pa, pb);
    match mode {
      case Baseline => BaselinePreservesPrefixes(turns);
      case Cache(p) => CacheModePreservesPrefixes(p, turns);
      case Token(_) =>
    }
    TwoTurnSaving(s, mode, turns, u);
  }

  lemma TwoTurnWorth(s: Settings, turns: seq<ReplayTurn>, u: Message, m: real, pa: Dollars, pb: Dollars)
    requires |turns| == 2 && turns[0].timestamp == turns[1].timestamp && turns[0].model != turns[1].model
    requires s == TightSettings(m, turns[0].model, pa, pb)
    ensures Worth(s, turns, 0, u) * 1000000.0 == 0.9 * pb - (m - 1.0) * pa
  {
    TightBase(s, turns, 0, pa);
    TightBase(s, turns, 1, pb);
    hide BaseAt;
    assert InTime(s, turns, 1);
    assert Later(s, turns, 2, u) == 0.0;
    assert Later(s, turns, 1, u) == 0.9 * BaseAt(s, turns, 1);
    MultiplierTimes(m, BaseAt(s, turns, 0), pa);
  }

  lemma MultiplierTimes(m: real, base: real, price: real)
    requires base * 1000000.0 == price
    ensures (1.0 - m) * base * 1000000.0 == 0.0 - (m - 1.0) * price
  {
  }

  lemma TwoTurnSaving(s: Settings, mode: Mode, turns: seq<ReplayTurn>, u: Message)
    requires |turns| == 2 && turns[0].input == [u] && !mode.Token? && PrefixPreserving(RunOf(mode, turns))
    ensures CachingPays(s, RunOf(mode, turns)) <==> Worth(s, turns, 0, u) >= 0.0
  {
    hide Worth, UncachedCost, InputCost, ChargesBetween, ForwardedUpTo;
    var run := RunOf(mode, turns);
    PrefixSavingIsExact(s, run);
    RunOfAt(mode, turns, 0);
    assert run.forwarded[0] == [u];
    NothingAtTheEnd(s, turns, run.forwarded[1], 1, |run.forwarded[1]|);
    assert WorthOf(s, turns, 0, [u], 0, 1) == WorthOf(s, turns, 0, [u], 0, 0) + Worth(s, turns, 0, u);
    assert NewWorth(s, run, 1) == WorthOf(s, turns, 1, run.forwarded[1], 1, |run.forwarded[1]|) + NewWorth(s, run, 2);
    assert NewWorth(s, run, 2) == 0.0;
  }

  /** So with models of different price baseline and delta replay cost more than no cache already
      at the default multiplier 1.25: the dear model pays for a write that only the cheap one reads. */
  lemma MixedModelsCanCostMore(mode: Mode, key: BlockKey, dear: string, cheap: string, u: Message, a: Message)
    requires !mode.Token? && dear != cheap && u.role == "user" && LoaderAnswer(key, a)
    ensures var turns := SessionTurns(key, TwoModelTranscript(dear, cheap, u, a));
            !CachingPays(TightSettings(1.25, dear, 15.0, 1.0), RunOf(mode, turns))
  {
    hide CachingPays, SessionTurns, LoaderAnswer;
    TwoQuestionsMeetTheBoundIff(mode, key, dear, cheap, u, a, 1.25, 15.0, 1.0);
  }

  // ---------------------------------------------------------------- cache mode against baseline

  /** What a token of turn i costs that the turn before had sent, and one that it had not. */
  function OldRate(s: Settings, turns: seq<ReplayTurn>, i: nat): real
    requires i < |turns|
  {
    BaseAt(s, turns, i) - Found(s, turns, i)
  }

  function NewRate(s: Settings, turns: seq<ReplayTurn>, i: nat): real
    requires i < |turns|
  {
    BaseAt(s, turns, i) - Entered(s, turns, i)
  }

  lemma RatesAreNotNegative(s: Settings, turns: seq<ReplayTurn>, i: nat)
    requires i < |turns| && s.cacheWriteMultiplier >= 0.0
    ensures OldRate(s, turns, i) >= 0.0 && NewRate(s, turns, i) >= 0.0
  {
    BaseIsPrice(s, turns, i);
    hide BaseAt;
    Surcharged(BaseAt(s, turns, i), s.cacheWriteMultiplier);
  }

  lemma Surcharged(base: real, m: real)
    requires base >= 0.0 && m >= 0.0
    ensures base - (1.0 - m) * base >= 0.0
  {
    assert base - (1.0 - m) * base == m * base;
  }

  /** The input cost of a turn of a growing run. */
  lemma PrefixInputCost(s: Settings, run: Run, i: nat)
    requires i < |run.turns| && PrefixPreserving(run) && TokenizerAt(s, run, i).Additive()
    ensures OldTokens(s, run, i) <= RequestTokens(s, run, i)
    ensures InputCost(ChargeAt(s, run, i))
            == OldRate(s, run.turns, i) * OldTokens(s, run, i) as real
               + NewRate(s, run.turns, i) * (RequestTokens(s, run, i) - OldTokens(s, run, i)) as real
  {
    hide ChargeAt, BaseAt, Found, Entered, TurnSaving, InputCost, PrefixPreserving, OldTokens;
    TurnSavingOfPrefixRun(s, run, i);
    TurnSavingIsExact(s, run, i);
    TurnConserved(s, run, i);
    CostSplit(BaseAt(s, run.turns, i), Found(s, run.turns, i), Entered(s, run.turns, i),
              OldTokens(s, run, i), RequestTokens(s, run, i));
  }

  lemma CostSplit(base: real, found: real, entered: real, a: nat, b: nat)
    requires a <= b
    ensures Cost(b, base) - (found * a as real + entered * (b as real - a as real))
            == (base - found) * a as real + (base - entered) * (b - a) as real
  {
    assert (b - a) as real == b as real - a as real;
    var x, y := a as real, (b - a) as real;
    assert (x + y) * base == base * x + base * y;
  }

  lemma CheaperTurn(seen: real, added: real, a: nat, n: nat, a': nat, n': nat)
    requires seen >= 0.0 && added >= 0.0 && a <= a' && n <= n'
    ensures seen * a as real + added * n as real <= seen * a' as real + added * n' as real
  {
    assert seen * (a' - a) as real >= 0.0 && added * (n' - n) as real >= 0.0;
    assert (a' - a) as real == a' as real - a as real && (n' - n) as real == n' as real - n as real;
  }

  /** Request by request: delta replay adds the answer and the delta, baseline the answer and the input. */
  lemma RequestGrows(p: Pipeline, turns: seq<ReplayTurn>, t: Tokenizer, i: nat)
    requires i < |turns|
    ensures var answer := if i == 0 then 0 else t.message(turns[i - 1].assistant);
            && t.Sum(Forwarded(Cache(p), turns, i))
               == (if i == 0 then 0 else t.Sum(Forwarded(Cache(p), turns, i - 1))) + answer + t.Sum(Delta(p, turns, i))
            && t.Sum(Conversation(turns, i))
               == (if i == 0 then 0 else t.Sum(Conversation(turns, i - 1))) + answer + t.Sum(turns[i].input)
  {
    if i > 0 {
      DeltaReplayExtends(p, turns, i);
      hide Forwarded, Delta;
      var m := turns[i - 1].assistant;
      ThreeParts(t, Forwarded(Cache(p), turns, i - 1), m, Delta(p, turns, i));
      ThreeParts(t, Conversation(turns, i - 1), m, turns[i].input);
    } else {
      assert [] + turns[0].input == turns[0].input;
    }
  }

  lemma ThreeParts(t: Tokenizer, f: seq<Message>, m: Message, g: seq<Message>)
    ensures t.Sum(f + [m] + g) == t.Sum(f) + t.message(m) + t.Sum(g)
  {
    SumAppend(t, f + [m], g);
    SumAppend(t, f, [m]);
    SumOne(t, m);
  }

  /** By this tokenizer no delta is longer than its input. */
  ghost predicate NeverMore(t: Tokenizer, p: Pipeline, turns: seq<ReplayTurn>) {
    forall j :: 0 <= j < |turns| ==> t.Sum(Delta(p, turns, j)) <= t.Sum(turns[j].input)
  }

  lemma {:induction false} NoLongerRequests(p: Pipeline, turns: seq<ReplayTurn>, t: Tokenizer, i: nat)
    requires i < |turns| && NeverMore(t, p, turns)
    ensures t.Sum(Forwarded(Cache(p), turns, i)) <= t.Sum(Conversation(turns, i))
  {
    hide Forwarded, Conversation, Delta;
    RequestGrows(p, turns, t, i);
    if i > 0 {
      NoLongerRequests(p, turns, t, i - 1);
    }
  }

  /** The tokens of turn i in either mode, by the turn's tokenizer. */
  lemma TokensInMode(s: Settings, mode: Mode, turns: seq<ReplayTurn>, i: nat)
    requires i < |turns| && PrefixPreserving(RunOf(mode, turns))
    ensures var run, t := RunOf(mode, turns), s.tokenizer(turns[i].model);
            && RequestTokens(s, run, i) == t.Sum(Forwarded(mode, turns, i))
            && OldTokens(s, run, i) == if i == 0 then 0 else t.Sum(Forwarded(mode, turns, i - 1))
  {
    hide Forwarded, ForwardedUpTo;
    var run, t := RunOf(mode, turns), s.tokenizer(turns[i].model);
    RunOfAt(mode, turns, i);
    if i > 0 {
      RunOfAt(mode, turns, i - 1);
      SumFirstAgree(t, run.forwarded[i - 1], run.forwarded[i], |run.forwarded[i - 1]|);
    }
  }

  function TurnCost(s: Settings, mode: Mode, turns: seq<ReplayTurn>, i: nat): real
    requires i < |turns|
  {
    InputCost(ChargeAt(s, RunOf(mode, turns), i))
  }

  /** Turn by turn, delta replay costs no more than baseline when no delta is longer than its input. */
  lemma CacheTurnCostsNoMore(s: Settings, p: Pipeline, turns: seq<ReplayTurn>, i: nat)
    requires i < |turns| && s.cacheWriteMultiplier >= 0.0
    requires s.tokenizer(turns[i].model).Additive() && NeverMore(s.tokenizer(turns[i].model), p, turns)
    ensures TurnCost(s, Cache(p), turns, i) <= TurnCost(s, Baseline, turns, i)
  {
    hide ChargeAt, Forwarded, ForwardedUpTo, InputCost, OldTokens, RequestTokens, OldRate, NewRate, NeverMore;
    var c, b, t := RunOf(Cache(p), turns), RunOf(Baseline, turns), s.tokenizer(turns[i].model);
    CacheModePreservesPrefixes(p, turns);
    BaselinePreservesPrefixes(turns);
    PrefixInputCost(s, c, i);
    PrefixInputCost(s, b, i);
    TokensInMode(s, Cache(p), turns, i);
    TokensInMode(s, Baseline, turns, i);
    CompareRequests(p, turns, t, i);
    RatesAreNotNegative(s, turns, i);
    CheaperTurn(OldRate(s, turns, i), NewRate(s, turns, i),
                OldTokens(s, c, i), RequestTokens(s, c, i) - OldTokens(s, c, i),
                OldTokens(s, b, i), RequestTokens(s, b, i) - OldTokens(s, b, i));
  }

  lemma CompareRequests(p: Pipeline, turns: seq<ReplayTurn>, t: Tokenizer, i: nat)
    requires i < |turns| && NeverMore(t, p, turns)
    ensures var seen := if i == 0 then 0 else t.Sum(Forwarded(Cache(p), turns, i - 1));
            var seen' := if i == 0 then 0 else t.Sum(Forwarded(Baseline, turns, i - 1));
            && seen <= seen'
            && t.Sum(Forwarded(Cache(p), turns, i)) - seen <= t.Sum(Forwarded(Baseline, turns, i)) - seen'
  {
    hide Forwarded, Conversation, Delta;
    RequestGrows(p, turns, t, i);
    BaselineForwards(turns, i);
    if i > 0 {
      BaselineForwards(turns, i - 1);
      NoLongerRequests(p, turns, t, i - 1);
    }
  }

  /** What a session costs in all, and for its input. */
  function SessionCost(s: Settings, mode: Mode, turns: seq<ReplayTurn>): real {
    ChargesBetween(s, RunOf(mode, turns), 0, |turns|).total
  }

  function InputUpTo(s: Settings, mode: Mode, turns: seq<ReplayTurn>, k: nat): real
    requires k <= |turns|
  {
    if k == 0 then 0.0 else InputUpTo(s, mode, turns, k - 1) + TurnCost(s, mode, turns, k - 1)
  }

  function OutputUpTo(s: Settings, turns: seq<ReplayTurn>, k: nat): real
    requires k <= |turns|
  {
    if k == 0 then 0.0
    else OutputUpTo(s, turns, k - 1) + Cost(turns[k - 1].outputTokens, RatesOf(s, turns[k - 1].model).output)
  }

  lemma TotalOfTurn(s: Settings, run: Run, i: nat)
    requires i < |run.turns|
    ensures ChargeAt(s, run, i).total
            == InputCost(ChargeAt(s, run, i)) + Cost(run.turns[i].outputTokens, RatesOf(s, run.turns[i].model).output)
  {
    hide ChargeAt, Cost, RatesOf;
    TurnAtRates(s, run, i);
    TurnConserved(s, run, i);
  }

  lemma {:induction false} TotalIsInputAndOutput(s: Settings, mode: Mode, turns: seq<ReplayTurn>, k: nat)
    requires k <= |turns|
    ensures ChargesBetween(s, RunOf(mode, turns), 0, k).total
            == InputUpTo(s, mode, turns, k) + OutputUpTo(s, turns, k)
  {
    hide ChargeAt, Cost, RatesOf, InputCost, ForwardedUpTo;
    if k > 0 {
      TotalIsInputAndOutput(s, mode, turns, k - 1);
      TotalOfTurn(s, RunOf(mode, turns), k - 1);
    }
  }

  lemma {:induction false} CacheInputCostsNoMore(s: Settings, p: Pipeline, turns: seq<ReplayTurn>, k: nat)
    requires k <= |turns| && s.cacheWriteMultiplier >= 0.0
    requires forall i :: 0 <= i < |turns| ==>
               s.tokenizer(turns[i].model).Additive() && NeverMore(s.tokenizer(turns[i].model), p, turns)
    ensures InputUpTo(s, Cache(p), turns, k) <= InputUpTo(s, Baseline, turns, k)
  {
    hide TurnCost, NeverMore;
    if k > 0 {
      CacheInputCostsNoMore(s, p, turns, k - 1);
      CacheTurnCostsNoMore(s, p, turns, k - 1);
    }
  }

  /** Over a whole session of any models, delta replay never costs more than baseline when no
      delta is longer than its input by any tokenizer of the session. */
  lemma CacheNeverCostsMore(s: Settings, p: Pipeline, turns: seq<ReplayTurn>)
    requires s.cacheWriteMultiplier >= 0.0
    requires forall i :: 0 <= i < |turns| ==>
               s.tokenizer(turns[i].model).Additive() && NeverMore(s.tokenizer(turns[i].model), p, turns)
    ensures SessionCost(s, Cache(p), turns) <= SessionCost(s, Baseline, turns)
  {
    hide NeverMore, InputUpTo, OutputUpTo, ChargesBetween;
    CacheInputCostsNoMore(s, p, turns, |turns|);
    TotalIsInputAndOutput(s, Cache(p), turns, |turns|);
    TotalIsInputAndOutput(s, Baseline, turns, |turns|);
  }

  // ---------------------------------------------------------------- the converse

  ghost predicate AllOf(turns: seq<ReplayTurn>, model: string) {
    forall i :: 0 <= i < |turns| ==> turns[i].model == model
  }

  /** Turn t is the first with any input, and the last. */
  function LateInput(t: nat, model: string, messages: seq<Message>): (turns: seq<ReplayTurn>)
    ensures |turns| == t + 1 && AllOf(turns, model)
    ensures forall j :: 0 <= j <= t ==> turns[j].input == if j == t then messages else []
  {
    seq(t + 1, j requires 0 <= j < t + 1 =>
      ReplayTurn("", model, 0, if j == t then messages else [], Message("assistant", Text(""), map[]), 0, 0, 0, 0))
  }

  lemma {:induction false} SameBeforeInput(p: Pipeline, t: nat, model: string, messages: seq<Message>, i: nat)
    requires i < t
    ensures var turns := LateInput(t, model, messages);
            Forwarded(Cache(p), turns, i) == Forwarded(Baseline, turns, i)
  {
    var turns := LateInput(t, model, messages);
    if i > 0 {
      SameBeforeInput(p, t, model, messages, i - 1);
      DeltaReplayExtends(p, turns, i);
    }
  }

  /** The cost of turn i on the late-input session, in old and new tokens. */
  lemma LateTurnCost(s: Settings, mode: Mode, t: nat, model: string, messages: seq<Message>, i: nat)
    requires i <= t && s.tokenizer(model).Additive()
    requires PrefixPreserving(RunOf(mode, LateInput(t, model, messages)))
    ensures var turns, tok := LateInput(t, model, messages), s.tokenizer(model);
            var seen := if i == 0 then 0 else tok.Sum(Forwarded(mode, turns, i - 1));
            && seen <= tok.Sum(Forwarded(mode, turns, i))
            && TurnCost(s, mode, turns, i) == OldRate(s, turns, i) * seen as real
                 + NewRate(s, turns, i) * (tok.Sum(Forwarded(mode, turns, i)) - seen) as real
  {
    hide ChargeAt, Forwarded, ForwardedUpTo, InputCost, OldTokens, RequestTokens, OldRate, NewRate;
    var turns := LateInput(t, model, messages);
    PrefixInputCost(s, RunOf(mode, turns), i);
    TokensInMode(s, mode, turns, i);
  }

  lemma {:induction false} SameCostBeforeInput(
    s: Settings, p: Pipeline, t: nat, model: string, messages: seq<Message>, k: nat)
    requires k <= t && s.tokenizer(model).Additive()
    ensures var turns := LateInput(t, model, messages);
            InputUpTo(s, Cache(p), turns, k) == InputUpTo(s, Baseline, turns, k)
  {
    hide TurnCost, LateInput;
    if k > 0 {
      SameCostBeforeInput(s, p, t, model, messages, k - 1);
      SameTurnBeforeInput(s, p, t, model, messages, k - 1);
    }
  }

  lemma SameTurnBeforeInput(s: Settings, p: Pipeline, t: nat, model: string, messages: seq<Message>, i: nat)
    requires i < t && s.tokenizer(model).Additive()
    ensures var turns := LateInput(t, model, messages);
            TurnCost(s, Cache(p), turns, i) == TurnCost(s, Baseline, turns, i)
  {
    hide TurnCost, Forwarded, ForwardedUpTo, OldRate, NewRate, PrefixPreserving, LateInput, Tokenizer.Sum;
    var turns := LateInput(t, model, messages);
    CacheModePreservesPrefixes(p, turns);
    BaselinePreservesPrefixes(turns);
    LateTurnCost(s, Cache(p), t, model, messages, i);
    LateTurnCost(s, Baseline, t, model, messages, i);
    SameBeforeInput(p, t, model, messages, i);
    if i > 0 {
      SameBeforeInput(p, t, model, messages, i - 1);
    }
  }

  lemma LastTurn(s: Settings, p: Pipeline, t: nat, model: string, messages: seq<Message>)
    requires t > 0 && messages != []
    ensures var turns := LateInput(t, model, messages);
            && NewRate(s, turns, t) == RatesOf(s, model).input
            && Delta(p, turns, t) == p(t, model, messages)
  {
    hide RatesOf;
  }

  lemma LastTurnCostsMore(s: Settings, p: Pipeline, t: nat, model: string, messages: seq<Message>)
    requires t > 0 && messages != [] && s.tokenizer(model).Additive() && RatesOf(s, model).input > 0.0
    requires s.tokenizer(model).Sum(p(t, model, messages)) > s.tokenizer(model).Sum(messages)
    ensures var turns := LateInput(t, model, messages);
            TurnCost(s, Cache(p), turns, t) > TurnCost(s, Baseline, turns, t)
  {
    hide TurnCost, Forwarded, ForwardedUpTo, OldRate, NewRate, RatesOf, Delta, LateInput, PrefixPreserving,
      Conversation, Tokenizer.Sum;
    var turns, tok := LateInput(t, model, messages), s.tokenizer(model);
    LastTurn(s, p, t, model, messages);
    CacheModePreservesPrefixes(p, turns);
    BaselinePreservesPrefixes(turns);
    LateTurnCost(s, Cache(p), t, model, messages, t);
    LateTurnCost(s, Baseline, t, model, messages, t);
    SameBeforeInput(p, t, model, messages, t - 1);
    RequestGrows(p, turns, tok, t);
    BaselineForwards(turns, t);
    BaselineForwards(turns, t - 1);
    var c := tok.Sum(Forwarded(Cache(p), turns, t)) - tok.Sum(Forwarded(Cache(p), turns, t - 1));
    var b := tok.Sum(Forwarded(Baseline, turns, t)) - tok.Sum(Forwarded(Baseline, turns, t - 1));
    MoreTokensCostMore(NewRate(s, turns, t), b, c);
  }

  lemma BaselineForwards(turns: seq<ReplayTurn>, i: nat)
    requires i < |turns|
    ensures Forwarded(Baseline, turns, i) == Conversation(turns, i)
  {
  }

  lemma MoreTokensCostMore(rate: real, b: nat, c: nat)
    requires rate > 0.0 && b < c
    ensures rate * b as real < rate * c as real
  {
    assert rate * (c - b) as real > 0.0;
    assert (c - b) as real == c as real - b as real;
  }

  /** On sessions of one model that costs anything, delta replay never costs more than baseline iff
      after the first turn the pipeline never makes an input longer. */
  lemma CacheNeverCostsMoreIff(s: Settings, p: Pipeline, model: string)
    requires s.cacheWriteMultiplier >= 0.0 && s.tokenizer(model).Additive() && RatesOf(s, model).input > 0.0
    ensures (forall turns: seq<ReplayTurn> :: AllOf(turns, model) ==>
               SessionCost(s, Cache(p), turns) <= SessionCost(s, Baseline, turns))
            <==> forall t: nat, messages: seq<Message> :: t > 0 && messages != [] ==>
                   s.tokenizer(model).Sum(p(t, model, messages)) <= s.tokenizer(model).Sum(messages)
  {
    hide SessionCost, RatesOf, Tokenizer.Sum, LateInput;
    if forall t: nat, messages: seq<Message> :: t > 0 && messages != [] ==>
         s.tokenizer(model).Sum(p(t, model, messages)) <= s.tokenizer(model).Sum(messages)
    {
      forall turns: seq<ReplayTurn> | AllOf(turns, model)
        ensures SessionCost(s, Cache(p), turns) <= SessionCost(s, Baseline, turns)
      {
        assert NeverMore(s.tokenizer(model), p, turns);
        CacheNeverCostsMore(s, p, turns);
      }
    } else {
      var t: nat, messages: seq<Message> :|
        t > 0 && messages != [] && s.tokenizer(model).Sum(p(t, model, messages)) > s.tokenizer(model).Sum(messages);
      LongerDeltaCostsMore(s, p, model, t, messages);
    }
  }

  lemma LongerDeltaCostsMore(s: Settings, p: Pipeline, model: string, t: nat, messages: seq<Message>)
    requires t > 0 && messages != [] && s.tokenizer(model).Additive() && RatesOf(s, model).input > 0.0
    requires s.tokenizer(model).Sum(p(t, model, messages)) > s.tokenizer(model).Sum(messages)
    ensures var turns := LateInput(t, model, messages);
            SessionCost(s, Cache(p), turns) > SessionCost(s, Baseline, turns)
  {
    hide TurnCost, ChargesBetween, RatesOf, LateInput, OutputUpTo;
    var turns := LateInput(t, model, messages);
    TotalIsInputAndOutput(s, Cache(p), turns, t + 1);
    TotalIsInputAndOutput(s, Baseline, turns, t + 1);
    SameCostBeforeInput(s, p, t, model, messages, t);
    LastTurnCostsMore(s, p, t, model, messages);
  }
}
