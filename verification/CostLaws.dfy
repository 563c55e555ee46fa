/** What the provider's cache saves, and when it cannot cost more than it saves. */
module CostLaws {
  import opened Messages
  import opened Tokens
  import opened Pricing
  import opened Summaries
  import opened Replay
  import opened ChargeLaws

  // ---------------------------------------------------------------- dollars and tokens

  /** What a run pays for its input. */
  function InputCost(c: Charges): real {
    c.paidInput + c.cacheRead + c.cacheWrite
  }

  function RatesOf(s: Settings, model: string): Rates {
    ResolveModelRates(s.pricing(model), model, s.cacheWriteMultiplier)
  }

  /** The base rate of turn i. */
  function BaseAt(s: Settings, turns: seq<ReplayTurn>, i: nat): real
    requires i < |turns|
  {
    RatesOf(s, turns[i].model).input
  }

  /** The dollars of c are its tokens at rates r. */
  predicate AtRates(c: Charges, r: Rates) {
    && c.paidInput == Cost(c.regular, r.input)
    && c.cacheRead == Cost(c.read, r.cacheRead)
    && c.cacheWrite == Cost(c.write, r.cacheWrite)
    && c.paidOutput == Cost(c.output, r.output)
    && c.total == InputCost(c) + c.paidOutput
  }

  lemma AtRatesPlus(c: Charges, d: Charges, r: Rates)
    requires AtRates(c, r) && AtRates(d, r)
    ensures AtRates(c.Plus(d), r)
  {
    hide Cost;
    CostAdds(c.regular, d.regular, r.input);
    CostAdds(c.read, d.read, r.cacheRead);
    CostAdds(c.write, d.write, r.cacheWrite);
    CostAdds(c.output, d.output, r.output);
  }

  lemma NothingAtRates(r: Rates)
    ensures AtRates(NO_CHARGES, r)
  {
  }

  lemma TurnAtRates(s: Settings, run: Run, i: nat)
    requires i < |run.turns|
    ensures AtRates(ChargeAt(s, run, i), RatesOf(s, run.turns[i].model))
  {
    hide SharedTokens, ResolveModelRates, Cost;
  }

  /** With one model, the accumulated dollars are the accumulated tokens at its rates. */
  lemma {:induction false} CostsAreTokensAtRates(s: Settings, run: Run, model: string, k: nat)
    requires k <= |run.turns| && OneModel(run, model)
    ensures AtRates(ChargesBetween(s, run, 0, k), RatesOf(s, model))
  {
    hide ChargeAt, RatesOf, AtRates, Charges.Plus;
    NothingAtRates(RatesOf(s, model));
    if k > 0 {
      CostsAreTokensAtRates(s, run, model, k - 1);
      TurnAtRates(s, run, k - 1);
      AtRatesPlus(ChargesBetween(s, run, 0, k - 1), ChargeAt(s, run, k - 1), RatesOf(s, model));
    }
  }

  /** The saving over sending everything uncached, on tokens and rates alone. */
  lemma Bill(c: Charges, r: Rates, m: real)
    requires c.read + c.write + c.regular == c.forwarded
    requires r.cacheRead * 10.0 == r.input && r.cacheWrite == r.input * m
    requires AtRates(c, r)
    ensures Cost(c.forwarded, r.input) - InputCost(c)
            == r.input * (0.9 * c.read as real - (m - 1.0) * c.write as real)
    ensures c.paidInput + c.cacheRead * 10.0 + Cost(c.write, r.input) == Cost(c.forwarded, r.input)
  {
    SavingArithmetic(c.read as real, c.write as real, c.regular as real, r.input, r.cacheRead, r.cacheWrite, m);
    assert c.forwarded as real == c.read as real + c.write as real + c.regular as real;
  }

  lemma SavingArithmetic(read: real, write: real, regular: real, base: real, low: real, high: real, m: real)
    requires low * 10.0 == base && high == base * m
    ensures (read + write + regular) * base - (regular * base + read * low + write * high)
            == base * (0.9 * read - (m - 1.0) * write)
    ensures regular * base + read * low * 10.0 + write * base == (read + write + regular) * base
  {
    assert read * low * 10.0 == read * base;
    assert write * high == write * base * m;
  }

  /** The saving of a one-model run over sending everything uncached, exactly. */
  lemma InputSaving(s: Settings, run: Run, model: string)
    requires OneModel(run, model)
    ensures var c := ChargesBetween(s, run, 0, |run.turns|);
            var base := RatesOf(s, model).input;
            Cost(c.forwarded, base) - InputCost(c)
            == base * (0.9 * c.read as real - (s.cacheWriteMultiplier - 1.0) * c.write as real)
  {
    hide ChargesBetween, Cost, AtRates;
    var c, r := ChargesBetween(s, run, 0, |run.turns|), RatesOf(s, model);
    CostsAreTokensAtRates(s, run, model, |run.turns|);
    RunConserved(s, run, 0, |run.turns|);
    Bill(c, r, s.cacheWriteMultiplier);
  }

  // ---------------------------------------------------------------- any mix of models

  /** The price of sending every request of the first k turns uncached, each at its model's rate. */
  function UncachedCost(s: Settings, run: Run, k: nat): real
    requires k <= |run.turns|
  {
    if k == 0 then 0.0
    else UncachedCost(s, run, k - 1) + Cost(ChargeAt(s, run, k - 1).forwarded, BaseAt(s, run.turns, k - 1))
  }

  ghost predicate CachingPays(s: Settings, run: Run) {
    InputCost(ChargesBetween(s, run, 0, |run.turns|)) <= UncachedCost(s, run, |run.turns|)
  }

  /** Nine tenths of each read are saved, the surcharge of each write is lost. */
  function TurnSaving(s: Settings, run: Run, i: nat): real
    requires i < |run.turns|
  {
    var c := ChargeAt(s, run, i);
    BaseAt(s, run.turns, i) * (0.9 * c.read as real - (s.cacheWriteMultiplier - 1.0) * c.write as real)
  }

  function SavingUpTo(s: Settings, run: Run, k: nat): real
    requires k <= |run.turns|
  {
    if k == 0 then 0.0 else SavingUpTo(s, run, k - 1) + TurnSaving(s, run, k - 1)
  }

  lemma TurnSavingIsExact(s: Settings, run: Run, i: nat)
    requires i < |run.turns|
    ensures var c := ChargeAt(s, run, i);
            Cost(c.forwarded, BaseAt(s, run.turns, i)) - InputCost(c) == TurnSaving(s, run, i)
  {
    hide ChargeAt, Cost, AtRates;
    TurnConserved(s, run, i);
    TurnAtRates(s, run, i);
    Bill(ChargeAt(s, run, i), RatesOf(s, run.turns[i].model), s.cacheWriteMultiplier);
  }

  lemma InputCostAdds(c: Charges, d: Charges)
    ensures InputCost(c.Plus(d)) == InputCost(c) + InputCost(d)
    ensures InputCost(NO_CHARGES) == 0.0
  {
  }

  /** What a run saves over sending everything uncached, exactly, with any models and tokenizers. */
  lemma {:induction false} SavingIsExact(s: Settings, run: Run, k: nat)
    requires k <= |run.turns|
    ensures UncachedCost(s, run, k) - InputCost(ChargesBetween(s, run, 0, k)) == SavingUpTo(s, run, k)
  {
    hide ChargeAt, Cost, TurnSaving, BaseAt, InputCost, Charges.Plus;
    InputCostAdds(NO_CHARGES, NO_CHARGES);
    if k > 0 {
      SavingIsExact(s, run, k - 1);
      TurnSavingIsExact(s, run, k - 1);
      InputCostAdds(ChargesBetween(s, run, 0, k - 1), ChargeAt(s, run, k - 1));
    }
  }

  predicate InTime(s: Settings, turns: seq<ReplayTurn>, i: nat)
    requires 0 < i < |turns|
  {
    turns[i].timestamp - turns[i - 1].timestamp <= s.ttl
  }

  /** Whatever message turn i-1 writes, the surcharge is covered by what turn i saves reading it. */
  ghost predicate WritePaysOff(s: Settings, turns: seq<ReplayTurn>, i: nat)
    requires 0 < i < |turns|
  {
    forall x: Message ::
      (s.cacheWriteMultiplier - 1.0) * BaseAt(s, turns, i - 1) * s.tokenizer(turns[i - 1].model).message(x) as real
      <= 0.9 * BaseAt(s, turns, i) * s.tokenizer(turns[i].model).message(x) as real
  }

  ghost predicate PriceCondition(s: Settings, turns: seq<ReplayTurn>) {
    forall i :: 0 < i < |turns| && InTime(s, turns, i) ==> WritePaysOff(s, turns, i)
  }

  lemma {:induction false} ScaledSums(t: Tokenizer, u: Tokenizer, f: seq<Message>, k: nat, a: real, b: real)
    requires k <= |f|
    requires forall x: Message :: a * t.message(x) as real <= b * u.message(x) as real
    ensures a * t.SumFirst(f, k) as real <= b * u.SumFirst(f, k) as real
  {
    if k > 0 {
      ScaledSums(t, u, f, k - 1, a, b);
      var x := f[k - 1];
      Distribute(a, t.SumFirst(f, k - 1), t.message(x));
      Distribute(b, u.SumFirst(f, k - 1), u.message(x));
    }
  }

  lemma Distribute(a: real, m: nat, n: nat)
    ensures a * (m + n) as real == a * m as real + a * n as real
  {
    assert (m + n) as real == m as real + n as real;
  }

  /** What turn i-1 writes is shared by turn i, and turn i reads all they share. */
  lemma WriteThenRead(s: Settings, run: Run, i: nat)
    requires 0 < i < |run.turns|
    ensures var c, d := ChargeAt(s, run, i - 1), ChargeAt(s, run, i);
            var n := SharedLength(run.forwarded[i - 1], run.forwarded[i]);
            && n <= |run.forwarded[i]|
            && (!InTime(s, run.turns, i) ==> c.write == d.read == 0)
            && (InTime(s, run.turns, i) ==>
                  && c.write <= TokenizerAt(s, run, i - 1).SumFirst(run.forwarded[i], n)
                  && d.read == TokenizerAt(s, run, i).SumFirst(run.forwarded[i], n))
  {
    hide ResolveModelRates, Cost;
  }

  lemma PairPays(s: Settings, run: Run, i: nat)
    requires 0 < i < |run.turns|
    requires InTime(s, run.turns, i) ==> WritePaysOff(s, run.turns, i)
    ensures (s.cacheWriteMultiplier - 1.0) * BaseAt(s, run.turns, i - 1) * ChargeAt(s, run, i - 1).write as real
            <= 0.9 * BaseAt(s, run.turns, i) * ChargeAt(s, run, i).read as real
  {
    hide ChargeAt, BaseAt;
    WriteThenRead(s, run, i);
    BaseIsPrice(s, run.turns, i);
    var a := (s.cacheWriteMultiplier - 1.0) * BaseAt(s, run.turns, i - 1);
    var b := 0.9 * BaseAt(s, run.turns, i);
    if InTime(s, run.turns, i) {
      var f := run.forwarded[i];
      var n := SharedLength(run.forwarded[i - 1], f);
      PairSums(s, run, i, n);
      SmallerWrite(a, b, ChargeAt(s, run, i - 1).write, TokenizerAt(s, run, i - 1).SumFirst(f, n),
                   ChargeAt(s, run, i).read);
    }
  }

  lemma PairSums(s: Settings, run: Run, i: nat, n: nat)
    requires 0 < i < |run.turns| && n <= |run.forwarded[i]| && WritePaysOff(s, run.turns, i)
    ensures (s.cacheWriteMultiplier - 1.0) * BaseAt(s, run.turns, i - 1)
            * TokenizerAt(s, run, i - 1).SumFirst(run.forwarded[i], n) as real
            <= 0.9 * BaseAt(s, run.turns, i) * TokenizerAt(s, run, i).SumFirst(run.forwarded[i], n) as real
  {
    hide BaseAt;
    var a := (s.cacheWriteMultiplier - 1.0) * BaseAt(s, run.turns, i - 1);
    var b := 0.9 * BaseAt(s, run.turns, i);
    ScaledSums(TokenizerAt(s, run, i - 1), TokenizerAt(s, run, i), run.forwarded[i], n, a, b);
  }

  lemma BaseIsPrice(s: Settings, turns: seq<ReplayTurn>, i: nat)
    requires i < |turns|
    ensures BaseAt(s, turns, i) >= 0.0
  {
    hide ResolveModelRates;
  }

  lemma SmallerWrite(a: real, b: real, w: nat, shared: nat, r: nat)
    requires w <= shared && b >= 0.0 && a * shared as real <= b * r as real
    ensures a * w as real <= b * r as real
  {
    if a > 0.0 {
      assert a * w as real <= a * shared as real;
    } else {
      assert a * w as real <= 0.0;
      assert b * r as real >= 0.0;
    }
  }

  /** After k turns only the surcharge of the last write can be uncovered, and turn k covers it. */
  lemma {:induction false} SavingCovered(s: Settings, run: Run, k: nat)
    requires k <= |run.turns| && PriceCondition(s, run.turns)
    ensures SavingUpTo(s, run, k)
            + (if k < |run.turns| then 0.9 * BaseAt(s, run.turns, k) * ChargeAt(s, run, k).read as real else 0.0) >= 0.0
  {
    hide ChargeAt, BaseAt, WritePaysOff;
    if k == 0 {
      NonNegativeBase(s, run, 0);
    } else {
      SavingCovered(s, run, k - 1);
      var base, c := BaseAt(s, run.turns, k - 1), ChargeAt(s, run, k - 1);
      SplitSaving(base, s.cacheWriteMultiplier, c.read, c.write);
      if k < |run.turns| {
        PairPays(s, run, k);
      } else {
        LastWritesNothing(s, run);
      }
    }
  }

  lemma SplitSaving(base: real, m: real, read: nat, write: nat)
    ensures base * (0.9 * read as real - (m - 1.0) * write as real)
            == 0.9 * base * read as real - (m - 1.0) * base * write as real
  {
  }

  lemma NonNegativeBase(s: Settings, run: Run, k: nat)
    ensures k < |run.turns| ==> 0.9 * BaseAt(s, run.turns, k) * ChargeAt(s, run, k).read as real >= 0.0
  {
    hide ChargeAt;
    if k < |run.turns| {
      var b, r := 0.9 * BaseAt(s, run.turns, k), ChargeAt(s, run, k).read as real;
      assert b >= 0.0 && r >= 0.0;
    }
  }

  lemma LastWritesNothing(s: Settings, run: Run)
    requires run.turns != []
    ensures ChargeAt(s, run, |run.turns| - 1).write == 0
  {
    hide ResolveModelRates, Cost, SharedTokens;
  }

  lemma PriceConditionSuffices(s: Settings, run: Run)
    requires PriceCondition(s, run.turns)
    ensures CachingPays(s, run)
  {
    SavingCovered(s, run, |run.turns|);
    SavingIsExact(s, run, |run.turns|);
  }

  /** Only turns i-1 and i send anything: one message, the same. */
  function OneMessageTwice(turns: seq<ReplayTurn>, i: nat, x: Message): Run {
    Trace(turns, seq(|turns|, j requires 0 <= j < |turns| => if j + 1 == i || j == i then [x] else []))
  }

  lemma OneMessageCharges(s: Settings, turns: seq<ReplayTurn>, i: nat, x: Message, j: nat)
    requires 0 < i < |turns| && j < |turns| && InTime(s, turns, i)
    ensures var c := ChargeAt(s, OneMessageTwice(turns, i, x), j);
            && c.read == (if j == i then s.tokenizer(turns[i].model).message(x) else 0)
            && c.write == (if j + 1 == i then s.tokenizer(turns[i - 1].model).message(x) else 0)
  {
    hide ResolveModelRates, Cost;
    SharedLengthUnique([x], [x], 1);
    SumOne(s.tokenizer(turns[i].model), x);
    SumOne(s.tokenizer(turns[i - 1].model), x);
  }

  lemma {:induction false} OneMessageSaving(s: Settings, turns: seq<ReplayTurn>, i: nat, x: Message, k: nat)
    requires 0 < i < |turns| && k <= |turns| && InTime(s, turns, i)
    ensures var run := OneMessageTwice(turns, i, x);
            SavingUpTo(s, run, k) == (if i <= k then TurnSaving(s, run, i - 1) else 0.0)
                                     + (if i < k then TurnSaving(s, run, i) else 0.0)
  {
    hide ChargeAt, BaseAt;
    if k > 0 {
      OneMessageSaving(s, turns, i, x, k - 1);
      OneMessageCharges(s, turns, i, x, k - 1);
    }
  }

  lemma UncoveredWriteCosts(s: Settings, turns: seq<ReplayTurn>, i: nat, x: Message)
    requires 0 < i < |turns| && InTime(s, turns, i)
    ensures CachingPays(s, OneMessageTwice(turns, i, x))
            <==> (s.cacheWriteMultiplier - 1.0) * BaseAt(s, turns, i - 1)
                 * s.tokenizer(turns[i - 1].model).message(x) as real
                 <= 0.9 * BaseAt(s, turns, i) * s.tokenizer(turns[i].model).message(x) as real
  {
    hide ChargeAt, BaseAt;
    var run := OneMessageTwice(turns, i, x);
    OneMessageSaving(s, turns, i, x, |turns|);
    SavingIsExact(s, run, |turns|);
    OneMessageCharges(s, turns, i, x, i - 1);
    OneMessageCharges(s, turns, i, x, i);
    SplitSaving(BaseAt(s, turns, i - 1), s.cacheWriteMultiplier, 0, s.tokenizer(turns[i - 1].model).message(x));
    SplitSaving(BaseAt(s, turns, i), s.cacheWriteMultiplier, s.tokenizer(turns[i].model).message(x), 0);
  }

  /** The exact condition, for any mix of models, prices and tokenizers: caching never costs
      more than sending everything uncached, whatever is forwarded, iff at every turn inside
      the TTL the surcharge of writing a message is at most what the next model saves reading it. */
  lemma CostBoundIff(s: Settings, turns: seq<ReplayTurn>)
    ensures (forall run: Run :: run.turns == turns ==> CachingPays(s, run)) <==> PriceCondition(s, turns)
  {
    hide CachingPays;
    if PriceCondition(s, turns) {
      forall run: Run | run.turns == turns
        ensures CachingPays(s, run)
      {
        PriceConditionSuffices(s, run);
      }
    } else {
      var i :| 0 < i < |turns| && InTime(s, turns, i) && !WritePaysOff(s, turns, i);
      var x: Message :|
        !((s.cacheWriteMultiplier - 1.0) * BaseAt(s, turns, i - 1) * s.tokenizer(turns[i - 1].model).message(x) as real
          <= 0.9 * BaseAt(s, turns, i) * s.tokenizer(turns[i].model).message(x) as real);
      UncoveredWriteCosts(s, turns, i, x);
      assert OneMessageTwice(turns, i, x).turns == turns;
    }
  }

  /** And every list of forwarded requests is what some token mode sends. */
  lemma {:induction false} TokenModeForwards(run: Run, k: nat)
    requires k <= |run.turns|
    ensures ForwardedUpTo(Replaying(run.forwarded), run.turns, k) == run.forwarded[..k]
  {
    if k > 0 {
      TokenModeForwards(run, k - 1);
      assert Forwarded(Replaying(run.forwarded), run.turns, k - 1) == run.forwarded[k - 1];
      assert run.forwarded[..k] == run.forwarded[..k - 1] + [run.forwarded[k - 1]];
    }
  }

  function Replaying(requests: seq<seq<Message>>): Mode {
    Token((turn: nat, model: string, messages: seq<Message>) => if turn < |requests| then requests[turn] else [])
  }

  /** The surcharge of a token written at turn i-1 is at most what turn i saves on reading it. */
  predicate SurchargeCovered(s: Settings, turns: seq<ReplayTurn>, i: nat)
    requires 0 < i < |turns|
  {
    (s.cacheWriteMultiplier - 1.0) * BaseAt(s, turns, i - 1) <= 0.9 * BaseAt(s, turns, i)
  }

  /** With one tokenizer that counts at all, the condition is about prices alone. */
  lemma PriceConditionOneTokenizer(s: Settings, turns: seq<ReplayTurn>, t: Tokenizer, x: Message)
    requires forall i :: 0 <= i < |turns| ==> s.tokenizer(turns[i].model) == t
    requires t.message(x) > 0
    ensures PriceCondition(s, turns)
            <==> forall i :: 0 < i < |turns| && InTime(s, turns, i) ==> SurchargeCovered(s, turns, i)
  {
    hide SurchargeCovered, WritePaysOff;
    forall i | 0 < i < |turns|
      ensures WritePaysOff(s, turns, i) <==> SurchargeCovered(s, turns, i)
    {
      WritePaysOffOneTokenizer(s, turns, i, t, x);
    }
  }

  lemma WritePaysOffOneTokenizer(s: Settings, turns: seq<ReplayTurn>, i: nat, t: Tokenizer, x: Message)
    requires 0 < i < |turns| && s.tokenizer(turns[i - 1].model) == t && s.tokenizer(turns[i].model) == t
    requires t.message(x) > 0
    ensures WritePaysOff(s, turns, i) <==> SurchargeCovered(s, turns, i)
  {
    hide BaseAt;
    var a, b := (s.cacheWriteMultiplier - 1.0) * BaseAt(s, turns, i - 1), 0.9 * BaseAt(s, turns, i);
    if a <= b {
      forall y: Message
        ensures a * t.message(y) as real <= b * t.message(y) as real
      {
        Scale(a, b, t.message(y));
      }
    } else {
      Scale(a, b, t.message(x));
    }
  }

  lemma Scale(a: real, b: real, n: nat)
    ensures a <= b ==> a * n as real <= b * n as real
    ensures n > 0 && a * n as real <= b * n as real ==> a <= b
  {
    if a <= b {
      assert (b - a) * n as real >= 0.0;
    } else if n > 0 {
      assert (a - b) * n as real > 0.0;
    }
  }

  // ---------------------------------------------------------------- one model

  lemma {:induction false} OneModelUncached(s: Settings, run: Run, model: string, k: nat)
    requires k <= |run.turns| && OneModel(run, model)
    ensures UncachedCost(s, run, k) == Cost(ChargesBetween(s, run, 0, k).forwarded, RatesOf(s, model).input)
  {
    hide ChargeAt, RatesOf, Cost;
    CostAdds(0, 0, RatesOf(s, model).input);
    if k > 0 {
      OneModelUncached(s, run, model, k - 1);
      CostAdds(ChargesBetween(s, run, 0, k - 1).forwarded, ChargeAt(s, run, k - 1).forwarded, RatesOf(s, model).input);
    }
  }

  lemma OneModelPriceCondition(s: Settings, run: Run, model: string)
    requires OneModel(run, model) && s.cacheWriteMultiplier <= 1.9
    ensures PriceCondition(s, run.turns)
  {
    hide WritePaysOff;
    forall i | 0 < i < |run.turns|
      ensures WritePaysOff(s, run.turns, i)
    {
      SameModelPaysOff(s, run.turns, i);
    }
  }

  lemma SameModelPaysOff(s: Settings, turns: seq<ReplayTurn>, i: nat)
    requires 0 < i < |turns| && turns[i - 1].model == turns[i].model && s.cacheWriteMultiplier <= 1.9
    ensures WritePaysOff(s, turns, i)
  {
    BaseIsPrice(s, turns, i);
    assert BaseAt(s, turns, i - 1) == BaseAt(s, turns, i);
    hide BaseAt;
    var base, t := BaseAt(s, turns, i), s.tokenizer(turns[i].model);
    Surcharge(s.cacheWriteMultiplier, base);
    forall x: Message
      ensures (s.cacheWriteMultiplier - 1.0) * base * t.message(x) as real <= 0.9 * base * t.message(x) as real
    {
      Scale((s.cacheWriteMultiplier - 1.0) * base, 0.9 * base, t.message(x));
    }
  }

  lemma Surcharge(m: real, base: real)
    requires m <= 1.9 && base >= 0.0
    ensures (m - 1.0) * base <= 0.9 * base
  {
  }

  /** Caching with one model never costs more than sending every request uncached, in any
      mode, as long as a cache write costs at most 1.9 times the base rate. */
  lemma CostBound(s: Settings, run: Run, model: string)
    requires OneModel(run, model) && s.cacheWriteMultiplier <= 1.9
    ensures var c := ChargesBetween(s, run, 0, |run.turns|);
            InputCost(c) <= Cost(c.forwarded, RatesOf(s, model).input)
  {
    OneModelPriceCondition(s, run, model);
    hide ChargesBetween, Cost, RatesOf, PriceCondition;
    PriceConditionSuffices(s, run);
    OneModelUncached(s, run, model, |run.turns|);
  }

  // ---------------------------------------------------------------- one message, sent twice

  function TightTurn(model: string, m: Message): ReplayTurn {
    ReplayTurn("", model, 0, [m], Message("assistant", Text(""), map[]), 0, 0, 0, 0)
  }

  /** Every message is one token; `first` costs `pa` a million tokens, every other model `pb`. */
  function TightSettings(multiplier: real, first: string, pa: Dollars, pb: Dollars): Settings {
    Settings(model => Tokenizer(m => 1, messages => 0),
             model => Some(Price(if model == first then pa else pb, 0.0)), 0, multiplier)
  }

  /** For two models and one message sent twice the bound holds iff the prices meet the condition. */
  lemma TwoModelsMeetTheBoundIff(first: string, second: string, m: Message, multiplier: real, pa: Dollars, pb: Dollars)
    requires first != second
    ensures var run: Run := Trace([TightTurn(first, m), TightTurn(second, m)], [[m], [m]]);
            CachingPays(TightSettings(multiplier, first, pa, pb), run) <==> (multiplier - 1.0) * pa <= 0.9 * pb
  {
    var turns := [TightTurn(first, m), TightTurn(second, m)];
    var s := TightSettings(multiplier, first, pa, pb);
    assert OneMessageTwice(turns, 1, m).forwarded == [[m], [m]];
    assert InTime(s, turns, 1);
    UncoveredWriteCosts(s, turns, 1, m);
    assert BaseAt(s, turns, 0) * 1000000.0 == pa && BaseAt(s, turns, 1) * 1000000.0 == pb;
  }

  /** And 1.9 is the exact limit for one model. */
  lemma CostBoundIsTight(model: string, m: Message, multiplier: real)
    ensures var run: Run := Trace([TightTurn(model, m), TightTurn(model, m)], [[m], [m]]);
            var s := TightSettings(multiplier, model, 1000000.0, 1000000.0);
            var c := ChargesBetween(s, run, 0, 2);
            InputCost(c) <= Cost(c.forwarded, RatesOf(s, model).input) <==> multiplier <= 1.9
  {
    var turns := [TightTurn(model, m), TightTurn(model, m)];
    var run: Run := Trace(turns, [[m], [m]]);
    var s := TightSettings(multiplier, model, 1000000.0, 1000000.0);
    assert OneMessageTwice(turns, 1, m).forwarded == [[m], [m]];
    assert InTime(s, turns, 1);
    UncoveredWriteCosts(s, turns, 1, m);
    assert BaseAt(s, turns, 0) == BaseAt(s, turns, 1) == 1.0;
    hide ChargesBetween, Cost;
    OneModelUncached(s, run, model, 2);
  }

  // ---------------------------------------------------------------- the summary's own figure

  /** The summary's own no-cache price. */
  function NoCacheTotalCost(c: Charges): real {
    c.paidInput + c.cacheRead * 10.0 + c.paidOutput
  }

  /** The tokens written by the first k turns, at the base rates of their models. */
  function WritesAtBase(s: Settings, run: Run, k: nat): real
    requires k <= |run.turns|
  {
    if k == 0 then 0.0
    else WritesAtBase(s, run, k - 1) + Cost(ChargeAt(s, run, k - 1).write, BaseAt(s, run.turns, k - 1))
  }

  /** Turn i wrote nothing, or its model is free. */
  predicate WritesForFree(s: Settings, run: Run, i: nat)
    requires i < |run.turns|
  {
    ChargeAt(s, run, i).write == 0 || BaseAt(s, run.turns, i) == 0.0
  }

  lemma WriteCostZeroIff(tokens: nat, base: real)
    requires base >= 0.0
    ensures Cost(tokens, base) >= 0.0
    ensures Cost(tokens, base) == 0.0 <==> tokens == 0 || base == 0.0
  {
    var t := tokens as real;
    if tokens > 0 && base > 0.0 {
      assert t * base > 0.0;
    } else {
      assert t * base == 0.0;
    }
  }

  lemma {:induction false} WritesAtBaseZeroIff(s: Settings, run: Run, k: nat)
    requires k <= |run.turns|
    ensures WritesAtBase(s, run, k) >= 0.0
    ensures WritesAtBase(s, run, k) == 0.0 <==> forall i :: 0 <= i < k ==> WritesForFree(s, run, i)
  {
    hide ChargeAt, BaseAt, Cost;
    if k > 0 {
      WritesAtBaseZeroIff(s, run, k - 1);
      BaseIsPrice(s, run.turns, k - 1);
      WriteCostZeroIff(ChargeAt(s, run, k - 1).write, BaseAt(s, run.turns, k - 1));
      assert WritesAtBase(s, run, k) == 0.0 <==> WritesAtBase(s, run, k - 1) == 0.0 && WritesForFree(s, run, k - 1);
    }
  }

  lemma NoCacheAdds(c: Charges, d: Charges)
    ensures NoCacheTotalCost(c.Plus(d)) == NoCacheTotalCost(c) + NoCacheTotalCost(d)
    ensures c.Plus(d).paidOutput == c.paidOutput + d.paidOutput
    ensures NoCacheTotalCost(NO_CHARGES) == 0.0
  {
  }

  lemma NoCacheOfTurn(s: Settings, run: Run, i: nat)
    requires i < |run.turns|
    ensures var c, base := ChargeAt(s, run, i), BaseAt(s, run.turns, i);
            NoCacheTotalCost(c) + Cost(c.write, base) == Cost(c.forwarded, base) + c.paidOutput
  {
    hide ChargeAt, Cost, AtRates;
    TurnConserved(s, run, i);
    TurnAtRates(s, run, i);
    Bill(ChargeAt(s, run, i), RatesOf(s, run.turns[i].model), s.cacheWriteMultiplier);
  }

  lemma {:induction false} NoCacheTotalIsShort(s: Settings, run: Run, k: nat)
    requires k <= |run.turns|
    ensures var c := ChargesBetween(s, run, 0, k);
            NoCacheTotalCost(c) + WritesAtBase(s, run, k) == UncachedCost(s, run, k) + c.paidOutput
  {
    hide ChargeAt, Cost, BaseAt, NoCacheTotalCost, Charges.Plus;
    NoCacheAdds(NO_CHARGES, NO_CHARGES);
    if k > 0 {
      NoCacheTotalIsShort(s, run, k - 1);
      NoCacheOfTurn(s, run, k - 1);
      NoCacheAdds(ChargesBetween(s, run, 0, k - 1), ChargeAt(s, run, k - 1));
    }
  }

  /** It leaves the written tokens out: with any mix of models it is short of the uncached
      price by the writes at base rate, and equal to it exactly when every write was free. */
  lemma NoCacheTotalUnderstates(s: Settings, run: Run, k: nat)
    requires k <= |run.turns|
    ensures var c := ChargesBetween(s, run, 0, k);
            && NoCacheTotalCost(c) + WritesAtBase(s, run, k) == UncachedCost(s, run, k) + c.paidOutput
            && NoCacheTotalCost(c) <= UncachedCost(s, run, k) + c.paidOutput
            && (NoCacheTotalCost(c) == UncachedCost(s, run, k) + c.paidOutput
                <==> forall i :: 0 <= i < k ==> WritesForFree(s, run, i))
  {
    hide ChargesBetween, UncachedCost, WritesAtBase, WritesForFree, NoCacheTotalCost;
    NoCacheTotalIsShort(s, run, k);
    WritesAtBaseZeroIff(s, run, k);
  }

  lemma {:induction false} OneModelWrites(s: Settings, run: Run, model: string, k: nat)
    requires k <= |run.turns| && OneModel(run, model)
    ensures WritesAtBase(s, run, k) == Cost(ChargesBetween(s, run, 0, k).write, RatesOf(s, model).input)
  {
    hide ChargeAt, RatesOf, Cost;
    CostAdds(0, 0, RatesOf(s, model).input);
    if k > 0 {
      OneModelWrites(s, run, model, k - 1);
      CostAdds(ChargesBetween(s, run, 0, k - 1).write, ChargeAt(s, run, k - 1).write, RatesOf(s, model).input);
    }
  }

  /** With one model: exactly when the run wrote nothing or the model is free. */
  lemma NoCacheTotalOneModel(s: Settings, run: Run, model: string)
    requires OneModel(run, model)
    ensures var c := ChargesBetween(s, run, 0, |run.turns|);
            var base := RatesOf(s, model).input;
            && NoCacheTotalCost(c) + Cost(c.write, base) == Cost(c.forwarded, base) + c.paidOutput
            && (NoCacheTotalCost(c) == Cost(c.forwarded, base) + c.paidOutput <==> c.write == 0 || base == 0.0)
  {
    var base := RatesOf(s, model).input;
    assert base >= 0.0;
    hide ChargesBetween, UncachedCost, WritesAtBase, NoCacheTotalCost, RatesOf, Cost;
    NoCacheTotalIsShort(s, run, |run.turns|);
    OneModelUncached(s, run, model, |run.turns|);
    OneModelWrites(s, run, model, |run.turns|);
    WriteCostZeroIff(ChargesBetween(s, run, 0, |run.turns|).write, base);
  }

  // ---------------------------------------------------------------- another write multiplier

  /** The same charges with d more dollars for cache writes. */
  function WithWriteDollars(c: Charges, d: real): Charges {
    c.(cacheWrite := c.cacheWrite + d, total := c.total + d)
  }

  lemma WriteDollarsAdd(c: Charges, d: real, e: Charges, f: real)
    ensures WithWriteDollars(c, d).Plus(WithWriteDollars(e, f)) == WithWriteDollars(c.Plus(e), d + f)
    ensures WithWriteDollars(c, 0.0) == c
  {
  }

  /** What writes of `dollars` at base rate cost more under multiplier m. */
  function Extra(s: Settings, m: real, dollars: real): real {
    (m - s.cacheWriteMultiplier) * dollars
  }

  lemma ExtraAdds(s: Settings, m: real, x: real, y: real)
    ensures Extra(s, m, x + y) == Extra(s, m, x) + Extra(s, m, y)
    ensures Extra(s, m, 0.0) == 0.0
  {
  }

  lemma MultiplierOfTurn(s: Settings, run: Run, m: real, i: nat)
    requires i < |run.turns|
    ensures ChargeAt(s.(cacheWriteMultiplier := m), run, i)
            == WithWriteDollars(ChargeAt(s, run, i),
                               Extra(s, m, Cost(ChargeAt(s, run, i).write, BaseAt(s, run.turns, i))))
  {
    hide ResolveModelRates, SharedTokens, Cost;
    var s' := s.(cacheWriteMultiplier := m);
    var model := run.turns[i].model;
    RatesUnderMultiplier(s, m, model);
    WriteCostScales(ChargeAt(s, run, i).write, RatesOf(s, model), RatesOf(s', model), s.cacheWriteMultiplier, m);
    TurnAtRates(s, run, i);
    TurnAtRates(s', run, i);
    TokensUnderMultiplier(s, run, m, i);
    hide ChargeAt;
  }

  lemma TokensUnderMultiplier(s: Settings, run: Run, m: real, i: nat)
    requires i < |run.turns|
    ensures var c, c' := ChargeAt(s, run, i), ChargeAt(s.(cacheWriteMultiplier := m), run, i);
            && c'.requests == c.requests && c'.rawInput == c.rawInput && c'.forwarded == c.forwarded
            && c'.read == c.read && c'.write == c.write && c'.regular == c.regular && c'.output == c.output
            && c'.eligible == c.eligible && c'.busts == c.busts && c'.expiries == c.expiries
  {
    hide ResolveModelRates, SharedTokens, Cost;
    RawUnderMultiplier(s, run.turns, m, i);
  }

  lemma {:induction false} RawUnderMultiplier(s: Settings, turns: seq<ReplayTurn>, m: real, i: nat)
    requires i < |turns|
    ensures RawInput(s.(cacheWriteMultiplier := m), turns, i) == RawInput(s, turns, i)
  {
    if i > 0 {
      RawUnderMultiplier(s, turns, m, i - 1);
    }
  }

  lemma RatesUnderMultiplier(s: Settings, m: real, model: string)
    ensures var r, r' := RatesOf(s, model), RatesOf(s.(cacheWriteMultiplier := m), model);
            && r'.input == r.input && r'.output == r.output && r'.cacheRead == r.cacheRead
            && r.cacheWrite == r.input * s.cacheWriteMultiplier && r'.cacheWrite == r.input * m
  {
  }

  lemma WriteCostScales(tokens: nat, r: Rates, r': Rates, m: real, m': real)
    requires r.cacheWrite == r.input * m && r'.cacheWrite == r.input * m'
    ensures Cost(tokens, r'.cacheWrite) == Cost(tokens, r.cacheWrite) + (m' - m) * Cost(tokens, r.input)
  {
    var t := tokens as real;
    assert t * (r.input * m') == t * (r.input * m) + (m' - m) * (t * r.input);
  }

  /** Under another write multiplier a run has the same tokens, the same counters and the same
      dollars for plain input, reads and output; its write dollars change by the written
      tokens at base rate, times the change of multiplier. */
  lemma {:induction false} MultiplierMovesWritesOnly(s: Settings, run: Run, m: real, k: nat)
    requires k <= |run.turns|
    ensures ChargesBetween(s.(cacheWriteMultiplier := m), run, 0, k)
            == WithWriteDollars(ChargesBetween(s, run, 0, k), Extra(s, m, WritesAtBase(s, run, k)))
  {
    hide ChargeAt, Cost, BaseAt, Charges.Plus, WithWriteDollars, Extra;
    WriteDollarsAdd(NO_CHARGES, 0.0, NO_CHARGES, 0.0);
    ExtraAdds(s, m, 0.0, 0.0);
    if k > 0 {
      var x, y := WritesAtBase(s, run, k - 1), Cost(ChargeAt(s, run, k - 1).write, BaseAt(s, run.turns, k - 1));
      MultiplierMovesWritesOnly(s, run, m, k - 1);
      MultiplierOfTurn(s, run, m, k - 1);
      WriteDollarsAdd(ChargesBetween(s, run, 0, k - 1), Extra(s, m, x), ChargeAt(s, run, k - 1), Extra(s, m, y));
      ExtraAdds(s, m, x, y);
    }
  }

  lemma {:induction false} MultiplierLeavesRewrites(s: Settings, run: Run, m: real, k: nat)
    requires k <= |run.turns|
    ensures RewritesUpTo(s.(cacheWriteMultiplier := m), run, k) == RewritesUpTo(s, run, k)
  {
    if k > 0 {
      MultiplierLeavesRewrites(s, run, m, k - 1);
    }
  }
}
