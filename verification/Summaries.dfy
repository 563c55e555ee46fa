/** The running totals of one simulated mode. */
module Summaries {

  /** Everything one call of the per-turn accountant adds. */
  datatype Charges = Charges(
    requests: nat, rawInput: nat, forwarded: nat,
    read: nat, write: nat, regular: nat, output: nat,
    paidInput: real, cacheRead: real, cacheWrite: real, paidOutput: real, total: real,
    eligible: nat, busts: nat, expiries: nat)
  {
    function Plus(c: Charges): Charges {
      Charges(requests + c.requests, rawInput + c.rawInput, forwarded + c.forwarded,
              read + c.read, write + c.write, regular + c.regular, output + c.output,
              paidInput + c.paidInput, cacheRead + c.cacheRead, cacheWrite + c.cacheWrite,
              paidOutput + c.paidOutput, total + c.total,
              eligible + c.eligible, busts + c.busts, expiries + c.expiries)
    }
  }

  lemma PlusAssociative(a: Charges, b: Charges, c: Charges)
    ensures a.Plus(b).Plus(c) == a.Plus(b.Plus(c))
  {
  }

  lemma PlusNothing(a: Charges)
    ensures a.Plus(NO_CHARGES) == a && NO_CHARGES.Plus(a) == a
  {
  }

  /** How the forwarded request of a turn differs from the conversation. */
  datatype Rewrites = Rewrites(
    rewrites: nat, stable: nat, busting: nat, nonEligible: nat,
    retroactive: nat, latestOnly: nat)
  {
    function Plus(r: Rewrites): Rewrites {
      Rewrites(rewrites + r.rewrites, stable + r.stable, busting + r.busting,
               nonEligible + r.nonEligible, retroactive + r.retroactive, latestOnly + r.latestOnly)
    }
  }

  const NO_CHARGES := Charges(0, 0, 0, 0, 0, 0, 0, 0.0, 0.0, 0.0, 0.0, 0.0, 0, 0, 0)
  const NO_REWRITES := Rewrites(0, 0, 0, 0, 0, 0)

  datatype Totals = Totals(sessions: nat, charges: Charges, rewrites: Rewrites) {
    function Plus(t: Totals): Totals {
      Totals(sessions + t.sessions, charges.Plus(t.charges), rewrites.Plus(t.rewrites))
    }
  }

  const NO_TOTALS := Totals(0, NO_CHARGES, NO_REWRITES)

  /** The mutable summary.  Its counters are grouped by who updates them: the
      per-turn accountant owns `charges`, the rewrite classifier `rewrites`. */
  class ModeSummary {
    const mode: string
    var sessions: nat
    var charges: Charges
    var rewrites: Rewrites

    constructor (mode: string, sessions: nat)
      ensures this.mode == mode
      ensures Value() == Totals(sessions, NO_CHARGES, NO_REWRITES)
    {
      this.mode := mode;
      this.sessions := sessions;
      charges := NO_CHARGES;
      rewrites := NO_REWRITES;
    }

    function Value(): Totals
      reads this
    {
      Totals(sessions, charges, rewrites)
    }

    /** Adds another summary; adding a summary to itself doubles it. */
    method Merge(source: ModeSummary)
      modifies this
      ensures Value() == old(Value()).Plus(old(source.Value()))
    {
      sessions := sessions + source.sessions;
      charges := charges.Plus(source.charges);
      rewrites := rewrites.Plus(source.rewrites);
    }
  }
}
