/** Per-token rates of a model. */
module Pricing {
  import opened Messages

  type Dollars = r: real | 0.0 <= r

  datatype Price = Price(inputPer1M: Dollars, outputPer1M: Dollars)

  datatype Rates = Rates(input: real, output: real, cacheRead: real, cacheWrite: real)

  function Cost(tokens: nat, rate: real): real {
    tokens as real * rate
  }

  /** Charging tokens together or apart comes to the same. */
  lemma CostAdds(a: nat, b: nat, rate: real)
    ensures Cost(a + b, rate) == Cost(a, rate) + Cost(b, rate)
    ensures Cost(0, rate) == 0.0
  {
    assert (a + b) as real == a as real + b as real;
  }

  predicate Contains(text: string, part: string) {
    part <= text || (text != [] && Contains(text[1..], part))
  }

  lemma {:induction false} ContainedIsCut(text: string, part: string)
    requires Contains(text, part)
    ensures exists a, b :: text == a + part + b
  {
    if part <= text {
      assert text == [] + part + text[|part|..];
    } else {
      ContainedIsCut(text[1..], part);
      var a, b :| text[1..] == a + part + b;
      assert text == ([text[0]] + a) + part + b;
    }
  }

  lemma {:induction false} CutIsContained(a: string, part: string, b: string)
    ensures Contains(a + part + b, part)
  {
    var text := a + part + b;
    if a == [] {
      assert text[..|part|] == part;
    } else {
      CutIsContained(a[1..], part, b);
      assert text[1..] == a[1..] + part + b;
    }
  }

  /** A text contains a part iff it can be cut in front of it and behind it. */
  lemma ContainsIff(text: string, part: string)
    ensures Contains(text, part) <==> exists a, b :: text == a + part + b
  {
    if Contains(text, part) {
      ContainedIsCut(text, part);
    }
    if exists a, b :: text == a + part + b {
      var a, b :| text == a + part + b;
      CutIsContained(a, part, b);
    }
  }

  /** The price table has no entry for every model; families fall back to fixed prices. */
  function PriceOf(known: Option<Price>, model: string): (p: Price)
    ensures known.Some? ==> p == known.value
    ensures known.None? && Contains(model, "opus") ==> p == Price(15.0, 75.0)
    ensures known.None? && !Contains(model, "opus") && Contains(model, "haiku") ==> p == Price(1.0, 5.0)
    ensures known.None? && !Contains(model, "opus") && !Contains(model, "haiku") ==> p == Price(3.0, 15.0)
  {
    match known
    case Some(p) => p
    case None =>
      if Contains(model, "opus") then Price(15.0, 75.0)
      else if Contains(model, "haiku") then Price(1.0, 5.0)
      else Price(3.0, 15.0)
  }

  /** A million input or output tokens cost the listed (or fallback) price; cache tokens
      are priced relative to input. */
  function ResolveModelRates(known: Option<Price>, model: string, cacheWriteMultiplier: real): (r: Rates)
    ensures r.input * 1000000.0 == PriceOf(known, model).inputPer1M
    ensures r.output * 1000000.0 == PriceOf(known, model).outputPer1M
    ensures r.input >= 0.0 && r.output >= 0.0
    ensures r.cacheRead * 10.0 == r.input
    ensures r.cacheWrite == r.input * cacheWriteMultiplier
  {
    var p := PriceOf(known, model);
    Rates(p.inputPer1M / 1000000.0,
          p.outputPer1M / 1000000.0,
          p.inputPer1M * 0.1 / 1000000.0,
          p.inputPer1M * cacheWriteMultiplier / 1000000.0)
  }
}
