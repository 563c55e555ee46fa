/** What idle gaps cost: cache-creation tokens by the gap in front of them, and whether a
    longer cache lifetime would pay. */
module IdleGaps {
  import opened Messages
  import opened Pricing

  /** One usage record; `id` is None when the message has none.  Times are in seconds. */
  datatype Record = Record(id: Option<string>, timestamp: int, cacheCreation: nat, model: string)

  // ---------------------------------------------------------------- reading a session

  /** The records whose id was not counted before, here or in an earlier file. */
  function Kept(records: seq<Record>, seen: set<string>): seq<Record> {
    if records == [] then []
    else
      var r := records[0];
      if r.id.Some? && r.id.value in seen then Kept(records[1..], seen)
      else [r] + Kept(records[1..], seen + Ids([r]))
  }

  function Ids(records: seq<Record>): set<string> {
    set r | r in records && r.id.Some? :: r.id.value
  }

  ghost predicate DistinctIds(k: seq<Record>) {
    forall i, j :: 0 <= i < j < |k| && k[i].id.Some? ==> k[i].id != k[j].id
  }

  ghost predicate NoneOf(k: seq<Record>, seen: set<string>) {
    forall i :: 0 <= i < |k| && k[i].id.Some? ==> k[i].id.value !in seen
  }

  lemma PrependDistinct(r: Record, k: seq<Record>, seen: set<string>)
    requires DistinctIds(k) && NoneOf(k, seen + Ids([r])) && NoneOf([r], seen)
    ensures DistinctIds([r] + k) && NoneOf([r] + k, seen)
  {
    IdsOfOne(r);
    assert [r][0] == r;
    var all := [r] + k;
    forall i | 0 <= i < |all| && all[i].id.Some?
      ensures all[i].id.value !in seen
      ensures forall j :: i < j < |all| ==> all[i].id != all[j].id
    {
      forall j | i < j < |all|
        ensures all[i].id != all[j].id
      {
        assert all[j] == k[j - 1] && (i > 0 ==> all[i] == k[i - 1]);
      }
      assert i > 0 ==> all[i] == k[i - 1];
    }
  }

  /** Deduplication keeps no id twice and none that was seen. */
  lemma {:induction false} KeptOncePerId(records: seq<Record>, seen: set<string>)
    ensures DistinctIds(Kept(records, seen)) && NoneOf(Kept(records, seen), seen)
  {
    if records != [] {
      var r := records[0];
      if r.id.Some? && r.id.value in seen {
        KeptOncePerId(records[1..], seen);
      } else {
        KeptOncePerId(records[1..], seen + Ids([r]));
        PrependDistinct(r, Kept(records[1..], seen + Ids([r])), seen);
      }
    }
  }

  lemma IdsOfOne(r: Record)
    ensures Ids([r]) == if r.id.Some? then {r.id.value} else {}
  {
    assert r in [r];
  }

  /** And it loses none. */
  lemma {:induction false} KeptLosesNoId(records: seq<Record>, seen: set<string>)
    ensures Ids(Kept(records, seen)) + seen == Ids(records) + seen
  {
    if records != [] {
      var r := records[0];
      var rest := records[1..];
      assert records == [r] + rest;
      assert Ids(records) == Ids([r]) + Ids(rest);
      if r.id.Some? && r.id.value in seen {
        KeptLosesNoId(rest, seen);
        assert Ids([r]) <= seen;
      } else {
        KeptLosesNoId(rest, seen + Ids([r]));
        var k := Kept(rest, seen + Ids([r]));
        assert Ids([r] + k) == Ids([r]) + Ids(k);
      }
    }
  }

  predicate Sorted(t: seq<Record>) {
    forall i, j :: 0 <= i < j < |t| ==> t[i].timestamp <= t[j].timestamp
  }

  /** Stable insertion of the next record by time. */
  function Insert(t: seq<Record>, r: Record): (s: seq<Record>)
    ensures |s| == |t| + 1
  {
    if t == [] || t[|t| - 1].timestamp <= r.timestamp then t + [r]
    else Insert(t[..|t| - 1], r) + [t[|t| - 1]]
  }

  function SortByTime(records: seq<Record>): (t: seq<Record>)
    ensures |t| == |records|
  {
    if records == [] then [] else Insert(SortByTime(records[..|records| - 1]), records[|records| - 1])
  }

  lemma {:induction false} InsertKeepsSorted(t: seq<Record>, r: Record, bound: int)
    requires Sorted(t)
    ensures Sorted(Insert(t, r))
    ensures (forall i :: 0 <= i < |t| ==> t[i].timestamp <= bound) && r.timestamp <= bound
            ==> forall i :: 0 <= i <= |t| ==> Insert(t, r)[i].timestamp <= bound
  {
    if t != [] && t[|t| - 1].timestamp > r.timestamp {
      InsertKeepsSorted(t[..|t| - 1], r, t[|t| - 1].timestamp);
    }
  }

  lemma {:induction false} SortIsSorted(records: seq<Record>)
    ensures Sorted(SortByTime(records))
  {
    if records != [] {
      SortIsSorted(records[..|records| - 1]);
      InsertKeepsSorted(SortByTime(records[..|records| - 1]), records[|records| - 1], 0);
    }
  }

  lemma {:induction false} InsertKeepsRecords(t: seq<Record>, r: Record)
    ensures multiset(Insert(t, r)) == multiset(t) + multiset{r}
  {
    if t != [] && t[|t| - 1].timestamp > r.timestamp {
      var front, last := t[..|t| - 1], t[|t| - 1];
      InsertKeepsRecords(front, r);
      assert t == front + [last];
    }
  }

  /** Sorting loses no record and makes up none. */
  lemma {:induction false} SortIsPermutation(records: seq<Record>)
    ensures multiset(SortByTime(records)) == multiset(records)
  {
    if records != [] {
      var front, last := records[..|records| - 1], records[|records| - 1];
      SortIsPermutation(front);
      InsertKeepsRecords(SortByTime(front), last);
      assert records == front + [last];
    }
  }

  /** The records of one moment, in the order they stand. */
  function AtTime(t: seq<Record>, time: int): seq<Record> {
    if t == [] then []
    else AtTime(t[..|t| - 1], time) + if t[|t| - 1].timestamp == time then [t[|t| - 1]] else []
  }

  /** At every moment t and u hold the same records in the same order. */
  ghost predicate SameOrder(t: seq<Record>, u: seq<Record>) {
    forall time :: AtTime(t, time) == AtTime(u, time)
  }

  lemma {:induction false} InsertIsStable(t: seq<Record>, r: Record, time: int)
    ensures AtTime(Insert(t, r), time) == AtTime(t, time) + if r.timestamp == time then [r] else []
  {
    if t == [] || t[|t| - 1].timestamp <= r.timestamp {
      assert (t + [r])[..|t|] == t;
    } else {
      var front, last := t[..|t| - 1], t[|t| - 1];
      InsertIsStable(front, r, time);
      assert (Insert(front, r) + [last])[..|t|] == Insert(front, r);
    }
  }

  /** Records of the same moment keep their order. */
  lemma {:induction false} SortIsStable(records: seq<Record>, time: int)
    ensures AtTime(SortByTime(records), time) == AtTime(records, time)
  {
    if records != [] {
      var front, last := records[..|records| - 1], records[|records| - 1];
      SortIsStable(front, time);
      InsertIsStable(SortByTime(front), last, time);
    }
  }

  lemma {:induction false} AtTimeFrom(t: seq<Record>, time: int)
    ensures forall i :: 0 <= i < |t| && t[i].timestamp == time ==> AtTime(t, time) != []
    ensures AtTime(t, time) != [] ==> exists i :: 0 <= i < |t| && t[i].timestamp == time
  {
    if t != [] {
      var front := t[..|t| - 1];
      AtTimeFrom(front, time);
      assert forall i :: 0 <= i < |front| ==> front[i] == t[i];
    }
  }

  lemma LastTimes(t: seq<Record>, u: seq<Record>)
    requires Sorted(t) && Sorted(u) && SameOrder(t, u)
    requires t != []
    ensures u != [] && t[|t| - 1].timestamp <= u[|u| - 1].timestamp
  {
    hide AtTime;
    var time := t[|t| - 1].timestamp;
    AtTimeFrom(t, time);
    AtTimeFrom(u, time);
    assert AtTime(u, time) != [];
    var i :| 0 <= i < |u| && u[i].timestamp == time;
  }

  lemma LastAtTime(t: seq<Record>, time: int)
    requires t != []
    ensures t[|t| - 1].timestamp == time ==> AtTime(t, time) == AtTime(t[..|t| - 1], time) + [t[|t| - 1]]
    ensures t[|t| - 1].timestamp != time ==> AtTime(t, time) == AtTime(t[..|t| - 1], time)
  {
  }

  /** Time order and the order at every moment fix the whole list: the sort is determined. */
  lemma {:induction false} StableSortIsUnique(t: seq<Record>, u: seq<Record>)
    requires Sorted(t) && Sorted(u) && SameOrder(t, u)
    ensures t == u
  {
    if t == [] {
      if u != [] {
        LastTimes(u, t);
      }
    } else {
      LastTimes(t, u);
      LastTimes(u, t);
      var a, b, last := t[..|t| - 1], u[..|u| - 1], t[|t| - 1].timestamp;
      LastAtTime(t, last);
      LastAtTime(u, last);
      SameFront(AtTime(a, last), t[|t| - 1], AtTime(b, last), u[|u| - 1]);
      forall time
        ensures AtTime(a, time) == AtTime(b, time)
      {
        LastAtTime(t, time);
        LastAtTime(u, time);
      }
      StableSortIsUnique(a, b);
      assert t == a + [t[|t| - 1]] && u == b + [u[|u| - 1]];
    }
  }

  /** What the sort returns is the only list in time order that keeps the order at every moment. */
  lemma SortIsTheStableSort(records: seq<Record>, t: seq<Record>)
    ensures t == SortByTime(records)
            <==> Sorted(t) && SameOrder(t, records)
  {
    var sorted := SortByTime(records);
    hide SortByTime, Sorted;
    SortIsSorted(records);
    forall time
      ensures AtTime(sorted, time) == AtTime(records, time)
    {
      SortIsStable(records, time);
    }
    assert SameOrder(sorted, records);
    if Sorted(t) && SameOrder(t, records) {
      assert SameOrder(t, sorted);
      StableSortIsUnique(t, sorted);
    }
  }

  lemma SameFront(a: seq<Record>, x: Record, b: seq<Record>, y: Record)
    requires a + [x] == b + [y]
    ensures a == b && x == y
  {
    assert (a + [x])[..|a|] == a && (b + [y])[..|b|] == b && |a + [x]| == |b + [y]|;
    assert (a + [x])[|a|] == x && (b + [y])[|b|] == y;
  }

  lemma IdsOfOneMore(records: seq<Record>, i: nat)
    requires i < |records|
    ensures Ids(records[..i + 1]) == Ids(records[..i]) + Ids([records[i]])
    ensures Ids([records[i]]) == if records[i].id.Some? then {records[i].id.value} else {}
  {
    assert records[..i + 1] == records[..i] + [records[i]];
    IdsOfOne(records[i]);
  }

  lemma KeptStep(records: seq<Record>, i: nat, seen: set<string>)
    requires i < |records|
    ensures Kept(records[i..], seen)
            == if records[i].id.Some? && records[i].id.value in seen then Kept(records[i + 1..], seen)
               else [records[i]] + Kept(records[i + 1..], seen + Ids([records[i]]))
  {
    assert records[i..][0] == records[i] && records[i..][1..] == records[i + 1..];
  }

  /** Record i has no id, or it is the first with its id, here and in the earlier files. */
  ghost predicate FirstOfId(records: seq<Record>, i: nat, seen: set<string>)
    requires i < |records|
  {
    var id := records[i].id;
    id.Some? ==> id.value !in seen && forall j :: 0 <= j < i ==> records[j].id != id
  }

  ghost function FirstsOfId(records: seq<Record>, seen: set<string>, k: nat): seq<Record>
    requires k <= |records|
  {
    if k == 0 then []
    else FirstsOfId(records, seen, k - 1) + if FirstOfId(records, k - 1, seen) then [records[k - 1]] else []
  }

  lemma FirstOfIdIff(records: seq<Record>, i: nat, seen: set<string>)
    requires i < |records|
    ensures FirstOfId(records, i, seen)
            <==> !(records[i].id.Some? && records[i].id.value in seen + Ids(records[..i]))
  {
    if records[i].id.Some? {
      assert records[i].id.value in Ids(records[..i]) <==> exists j :: 0 <= j < i && records[j].id == records[i].id by {
        forall j | 0 <= j < i && records[j].id == records[i].id
          ensures records[i].id.value in Ids(records[..i])
        {
          assert records[..i][j] == records[j];
        }
      }
    }
  }

  lemma Regroup(a: seq<Record>, r: Record, b: seq<Record>)
    ensures a + ([r] + b) == a + [r] + b && a + [] + b == a + b
  {
  }

  lemma {:induction false} KeptAfter(records: seq<Record>, seen: set<string>, k: nat)
    requires k <= |records|
    ensures FirstsOfId(records, seen, k) + Kept(records[k..], seen + Ids(records[..k])) == Kept(records, seen)
  {
    hide Kept, Ids, FirstOfId;
    if k == 0 {
      NoIds();
      assert records[0..] == records && records[..0] == [] && seen + {} == seen;
      assert [] + Kept(records, seen) == Kept(records, seen);
    } else {
      var before := seen + Ids(records[..k - 1]);
      var r := records[k - 1];
      KeptAfter(records, seen, k - 1);
      KeptStep(records, k - 1, before);
      FirstOfIdIff(records, k - 1, seen);
      IdsOfOneMore(records, k - 1);
      assert seen + Ids(records[..k]) == before + Ids([r]);
      assert r.id.Some? && r.id.value in before ==> before + Ids([r]) == before;
      Regroup(FirstsOfId(records, seen, k - 1), r, Kept(records[k..], before + Ids([r])));
    }
  }

  /** Of each id exactly its first record is kept, in file order, and every record without one. */
  lemma KeptAreFirsts(records: seq<Record>, seen: set<string>)
    ensures Kept(records, seen) == FirstsOfId(records, seen, |records|)
  {
    KeptAfter(records, seen, |records|);
    assert records[|records|..] == [];
    assert Kept([], seen + Ids(records[..|records|])) == [];
    assert FirstsOfId(records, seen, |records|) + [] == FirstsOfId(records, seen, |records|);
  }

  method TurnsOf(records: seq<Record>, seen: set<string>) returns (t: seq<Record>, seen': set<string>)
    ensures t == SortByTime(Kept(records, seen))
    ensures seen' == seen + Ids(records)
  {
    hide SortByTime, Ids, Kept;
    NothingToKeep();
    var out: seq<Record> := [];
    seen' := seen;
    assert records[0..] == records;
    NoIds();
    for i := 0 to |records|
      invariant out + Kept(records[i..], seen') == Kept(records, seen)
      invariant seen' == seen + Ids(records[..i])
    {
      var r := records[i];
      IdsOfOneMore(records, i);
      KeptStep(records, i, seen');
      if r.id.Some? {
        if r.id.value !in seen' {
          seen' := seen' + {r.id.value};
          out := out + [r];
        }
      } else {
        assert seen' + {} == seen';
        out := out + [r];
      }
    }
    assert records[..|records|] == records;
    assert records[|records|..] == [] && out + [] == out;
    t := SortByTime(out);
  }

  lemma NothingToKeep()
    ensures forall seen :: Kept([], seen) == []
  {
  }

  lemma NoIds()
    ensures Ids([]) == {}
  {
  }

  // ---------------------------------------------------------------- buckets

  datatype Bucket = Under5 | From5To15 | From15To30 | From30To60 | From1hTo4h | Over4h

  function BucketOf(gapSeconds: int): Bucket {
    if gapSeconds < 5 * 60 then Under5
    else if gapSeconds < 15 * 60 then From5To15
    else if gapSeconds < 30 * 60 then From15To30
    else if gapSeconds < 60 * 60 then From30To60
    else if gapSeconds < 240 * 60 then From1hTo4h
    else Over4h
  }

  /** In-window deltas, rewrites a one-hour cache would avoid, and the rest. */
  datatype Split = Split(inWindow: nat, avoidable: nat, unavoidable: nat) {
    function Plus(s: Split): Split {
      Split(inWindow + s.inWindow, avoidable + s.avoidable, unavoidable + s.unavoidable)
    }

    function Total(): nat {
      inWindow + avoidable + unavoidable
    }
  }

  const NOTHING := Split(0, 0, 0)

  function InBucket(b: Bucket, tokens: nat): Split {
    match b
    case Under5 => Split(tokens, 0, 0)
    case From5To15 => Split(0, tokens, 0)
    case From15To30 => Split(0, tokens, 0)
    case From30To60 => Split(0, tokens, 0)
    case From1hTo4h => Split(0, 0, tokens)
    case Over4h => Split(0, 0, tokens)
  }

  /** The share of a record in the tokens of a model. */
  function Share(r: Record, model: string): nat {
    if r.model == model then r.cacheCreation else 0
  }

  function SumShares(t: seq<Record>, model: string, k: nat): nat
    requires k <= |t|
  {
    if k == 0 then 0 else SumShares(t, model, k - 1) + Share(t[k - 1], model)
  }

  /** Turns 0..k-1 of a session: the first is a fresh write, a turn that went back in time is skipped. */
  function SessionSplit(t: seq<Record>, model: string, k: nat): Split
    requires k <= |t|
  {
    if k == 0 then NOTHING
    else if k == 1 then Split(0, 0, Share(t[0], model))
    else
      var gap := t[k - 1].timestamp - t[k - 2].timestamp;
      SessionSplit(t, model, k - 1).Plus(
        if gap < 0 then NOTHING else InBucket(BucketOf(gap), Share(t[k - 1], model)))
  }

  /** Sorting leaves no negative gap, so a session's split is all of its tokens. */
  lemma {:induction false} SessionConserved(t: seq<Record>, model: string, k: nat)
    requires Sorted(t) && k <= |t|
    ensures SessionSplit(t, model, k).Total() == SumShares(t, model, k)
  {
    if k > 0 {
      SessionConserved(t, model, k - 1);
    }
  }

  lemma {:induction false} SharesAgree(t: seq<Record>, u: seq<Record>, model: string, k: nat)
    requires k <= |t| && k <= |u| && t[..k] == u[..k]
    ensures SumShares(t, model, k) == SumShares(u, model, k)
  {
    if k > 0 {
      assert t[..k][k - 1] == u[..k][k - 1];
      assert t[..k - 1] == t[..k][..k - 1] == u[..k][..k - 1] == u[..k - 1];
      SharesAgree(t, u, model, k - 1);
    }
  }

  lemma SharesOfOneMore(t: seq<Record>, r: Record, model: string)
    ensures SumShares(t + [r], model, |t| + 1) == SumShares(t, model, |t|) + Share(r, model)
  {
    assert (t + [r])[..|t|] == t[..|t|];
    SharesAgree(t + [r], t, model, |t|);
  }

  lemma {:induction false} InsertAddsShare(t: seq<Record>, r: Record, model: string)
    ensures SumShares(Insert(t, r), model, |t| + 1) == SumShares(t, model, |t|) + Share(r, model)
  {
    if t == [] || t[|t| - 1].timestamp <= r.timestamp {
      SharesOfOneMore(t, r, model);
    } else {
      var front, last := t[..|t| - 1], t[|t| - 1];
      InsertAddsShare(front, r, model);
      SharesOfOneMore(Insert(front, r), last, model);
      SharesOfOneMore(front, last, model);
      assert t == front + [last];
    }
  }

  /** Sorting moves records, it does not lose their tokens. */
  lemma {:induction false} SortKeepsShares(records: seq<Record>, model: string)
    ensures SumShares(SortByTime(records), model, |records|) == SumShares(records, model, |records|)
  {
    if records != [] {
      var front, last := records[..|records| - 1], records[|records| - 1];
      SortKeepsShares(front, model);
      InsertAddsShare(SortByTime(front), last, model);
      SharesOfOneMore(front, last, model);
      assert records == front + [last];
    }
  }

  /** The sessions that count: deduplicated across files in order, two turns or more. */
  function Sessions(files: seq<seq<Record>>, k: nat): seq<seq<Record>>
    requires k <= |files|
  {
    if k == 0 then []
    else
      var kept := Kept(files[k - 1], SeenBefore(files, k - 1));
      Sessions(files, k - 1) + if |kept| < 2 then [] else [kept]
  }

  function SeenBefore(files: seq<seq<Record>>, k: nat): set<string>
    requires k <= |files|
  {
    if k == 0 then {} else SeenBefore(files, k - 1) + Ids(files[k - 1])
  }

  /** The split of the first k sessions, each in time order. */
  function SplitOf(sessions: seq<seq<Record>>, model: string, k: nat): Split
    requires k <= |sessions|
  {
    if k == 0 then NOTHING
    else SplitOf(sessions, model, k - 1).Plus(SessionSplit(SortByTime(sessions[k - 1]), model, |sessions[k - 1]|))
  }

  function TokensOf(sessions: seq<seq<Record>>, model: string, k: nat): nat
    requires k <= |sessions|
  {
    if k == 0 then 0 else TokensOf(sessions, model, k - 1) + SumShares(sessions[k - 1], model, |sessions[k - 1]|)
  }

  /** For every model, in-window, avoidable and unavoidable tokens are all the cache-creation
      tokens of the counted sessions. */
  lemma {:induction false} SplitConserved(sessions: seq<seq<Record>>, model: string, k: nat)
    requires k <= |sessions|
    ensures SplitOf(sessions, model, k).Total() == TokensOf(sessions, model, k)
  {
    hide SessionSplit, SumShares, SortByTime;
    if k > 0 {
      SplitConserved(sessions, model, k - 1);
      var t := sessions[k - 1];
      SortIsSorted(t);
      SessionConserved(SortByTime(t), model, |t|);
      SortKeepsShares(t, model);
    }
  }

  // ---------------------------------------------------------------- what the split means

  /** The model's tokens of turns 1..k-1 that come `gap` seconds or more after the turn before. */
  function AfterGaps(t: seq<Record>, model: string, k: nat, gap: int): nat
    requires k <= |t|
  {
    if k < 2 then 0
    else
      var r := t[k - 1];
      AfterGaps(t, model, k - 1, gap)
      + if r.model == model && r.timestamp - t[k - 2].timestamp >= gap then r.cacheCreation else 0
  }

  function FirstTokens(t: seq<Record>, model: string): nat {
    if t != [] && t[0].model == model then t[0].cacheCreation else 0
  }

  /** In window are the tokens after gaps under five minutes, avoidable those after gaps from five
      minutes to under an hour, and the rest those of the first turn and after an hour or more. */
  lemma {:induction false} SplitByGaps(t: seq<Record>, model: string, k: nat)
    requires k <= |t|
    ensures var s := SessionSplit(t, model, k);
            && s.inWindow + AfterGaps(t, model, k, 300) == AfterGaps(t, model, k, 0)
            && s.avoidable + AfterGaps(t, model, k, 3600) == AfterGaps(t, model, k, 300)
            && s.unavoidable == AfterGaps(t, model, k, 3600) + if k > 0 then FirstTokens(t, model) else 0
  {
    if k > 1 {
      SplitByGaps(t, model, k - 1);
    }
  }

  function AllAfterGaps(sessions: seq<seq<Record>>, model: string, k: nat, gap: int): nat
    requires k <= |sessions|
  {
    if k == 0 then 0
    else
      AllAfterGaps(sessions, model, k - 1, gap)
      + AfterGaps(SortByTime(sessions[k - 1]), model, |sessions[k - 1]|, gap)
  }

  function AllFirstTokens(sessions: seq<seq<Record>>, model: string, k: nat): nat
    requires k <= |sessions|
  {
    if k == 0 then 0
    else AllFirstTokens(sessions, model, k - 1) + FirstTokens(SortByTime(sessions[k - 1]), model)
  }

  lemma {:induction false} AllSplitByGaps(sessions: seq<seq<Record>>, model: string, k: nat)
    requires k <= |sessions|
    ensures var s := SplitOf(sessions, model, k);
            && s.inWindow + AllAfterGaps(sessions, model, k, 300) == AllAfterGaps(sessions, model, k, 0)
            && s.avoidable + AllAfterGaps(sessions, model, k, 3600) == AllAfterGaps(sessions, model, k, 300)
            && s.unavoidable == AllAfterGaps(sessions, model, k, 3600) + AllFirstTokens(sessions, model, k)
  {
    hide SessionSplit, SortByTime, AfterGaps, FirstTokens;
    if k > 0 {
      AllSplitByGaps(sessions, model, k - 1);
      SplitByGaps(SortByTime(sessions[k - 1]), model, |sessions[k - 1]|);
      NoFirstTokens(SortByTime(sessions[k - 1]), model);
    }
  }

  lemma NoFirstTokens(t: seq<Record>, model: string)
    ensures t == [] ==> FirstTokens(t, model) == 0
  {
  }

  /** The seconds of each bucket. */
  predicate InRange(b: Bucket, gap: int) {
    match b
    case Under5 => 0 <= gap < 300
    case From5To15 => 300 <= gap < 900
    case From15To30 => 900 <= gap < 1800
    case From30To60 => 1800 <= gap < 3600
    case From1hTo4h => 3600 <= gap < 14400
    case Over4h => 14400 <= gap
  }

  /** The model's tokens of turns 1..k-1 after a gap in the range of the bucket. */
  function InBucketRange(t: seq<Record>, model: string, k: nat, b: Bucket): nat
    requires k <= |t|
  {
    if k < 2 then 0
    else
      var r := t[k - 1];
      InBucketRange(t, model, k - 1, b)
      + if r.model == model && InRange(b, r.timestamp - t[k - 2].timestamp) then r.cacheCreation else 0
  }

  function AllInBucketRange(sessions: seq<seq<Record>>, model: string, k: nat, b: Bucket): nat
    requires k <= |sessions|
  {
    if k == 0 then 0
    else
      AllInBucketRange(sessions, model, k - 1, b)
      + InBucketRange(SortByTime(sessions[k - 1]), model, |sessions[k - 1]|, b)
  }

  // ---------------------------------------------------------------- which sessions count

  /** A session counts iff its file has two records or more that no earlier file had, and it holds
      exactly those. */
  lemma {:induction false} SessionsAreFiles(files: seq<seq<Record>>, k: nat, j: nat)
    requires k <= |files| && j < |Sessions(files, k)|
    ensures |Sessions(files, k)[j]| >= 2
    ensures exists i :: 0 <= i < k && Sessions(files, k)[j] == Kept(files[i], SeenBefore(files, i))
  {
    hide Kept;
    if j < |Sessions(files, k - 1)| {
      SessionsAreFiles(files, k - 1, j);
      assert Sessions(files, k)[j] == Sessions(files, k - 1)[j];
    }
  }

  lemma {:induction false} FilesAreSessions(files: seq<seq<Record>>, k: nat, i: nat)
    requires i < k <= |files| && |Kept(files[i], SeenBefore(files, i))| >= 2
    ensures Kept(files[i], SeenBefore(files, i)) in Sessions(files, k)
  {
    hide Kept, SeenBefore;
    if i < k - 1 {
      FilesAreSessions(files, k - 1, i);
    }
  }

  lemma {:induction false} SeenGrows(files: seq<seq<Record>>, i: nat, k: nat)
    requires i < k <= |files|
    ensures Ids(files[i]) <= SeenBefore(files, k)
    decreases k
  {
    if i < k - 1 {
      SeenGrows(files, i, k - 1);
    }
  }

  lemma {:induction false} SessionIdsSeen(files: seq<seq<Record>>, k: nat, j: nat)
    requires k <= |files| && j < |Sessions(files, k)|
    ensures Ids(Sessions(files, k)[j]) <= SeenBefore(files, k)
  {
    hide Kept, Ids;
    if j < |Sessions(files, k - 1)| {
      SessionIdsSeen(files, k - 1, j);
      assert Sessions(files, k)[j] == Sessions(files, k - 1)[j];
    } else {
      KeptLosesNoId(files[k - 1], SeenBefore(files, k - 1));
    }
  }

  /** No id is counted twice: not within a session, not in two. */
  lemma {:induction false} IdsCountOnce(files: seq<seq<Record>>, k: nat, i: nat, j: nat)
    requires k <= |files| && i < j < |Sessions(files, k)|
    ensures DistinctIds(Sessions(files, k)[i]) && DistinctIds(Sessions(files, k)[j])
    ensures Ids(Sessions(files, k)[i]) !! Ids(Sessions(files, k)[j])
  {
    hide Kept, DistinctIds;
    if j < |Sessions(files, k - 1)| {
      IdsCountOnce(files, k - 1, i, j);
      assert Sessions(files, k)[i] == Sessions(files, k - 1)[i] && Sessions(files, k)[j] == Sessions(files, k - 1)[j];
    } else {
      var seen := SeenBefore(files, k - 1);
      assert Sessions(files, k)[j] == Kept(files[k - 1], seen) && Sessions(files, k)[i] == Sessions(files, k - 1)[i];
      SessionIdsSeen(files, k - 1, i);
      KeptOncePerId(files[k - 1], seen);
      DistinctSession(files, k - 1, i);
    }
  }

  lemma {:induction false} DistinctSession(files: seq<seq<Record>>, k: nat, j: nat)
    requires k <= |files| && j < |Sessions(files, k)|
    ensures DistinctIds(Sessions(files, k)[j])
  {
    hide Kept, DistinctIds;
    if j < |Sessions(files, k - 1)| {
      DistinctSession(files, k - 1, j);
      assert Sessions(files, k)[j] == Sessions(files, k - 1)[j];
    } else {
      KeptOncePerId(files[k - 1], SeenBefore(files, k - 1));
    }
  }

  // ---------------------------------------------------------------- the accumulation

  type Ledger = map<(Bucket, string), nat>

  function At<K>(m: map<K, nat>, key: K): nat {
    if key in m then m[key] else 0
  }

  /** The per-model aggregate of the two dictionaries. */
  function ByModel(ledger: Ledger, first: map<string, nat>, model: string): Split {
    Split(At(ledger, (Under5, model)),
          At(ledger, (From5To15, model)) + At(ledger, (From15To30, model)) + At(ledger, (From30To60, model)),
          At(ledger, (From1hTo4h, model)) + At(ledger, (Over4h, model)) + At(first, model))
  }

  lemma AtUpdated<K>(m: map<K, nat>, key: K, value: nat, q: K)
    ensures At(m[key := value], q) == if q == key then value else At(m, q)
  {
  }

  lemma AddToLedger(ledger: Ledger, first: map<string, nat>, b: Bucket, model: string, tokens: nat, m: string)
    ensures ByModel(ledger[(b, model) := At(ledger, (b, model)) + tokens], first, m)
            == ByModel(ledger, first, m).Plus(InBucket(b, if model == m then tokens else 0))
  {
    hide At;
    var own := At(ledger, (b, model)) + tokens;
    AtUpdated(ledger, (b, model), own, (Under5, m));
    AtUpdated(ledger, (b, model), own, (From5To15, m));
    AtUpdated(ledger, (b, model), own, (From15To30, m));
    AtUpdated(ledger, (b, model), own, (From30To60, m));
    AtUpdated(ledger, (b, model), own, (From1hTo4h, m));
    AtUpdated(ledger, (b, model), own, (Over4h, m));
  }

  lemma AddToFirst(ledger: Ledger, first: map<string, nat>, model: string, tokens: nat, m: string)
    ensures ByModel(ledger, first[model := At(first, model) + tokens], m)
            == ByModel(ledger, first, m).Plus(Split(0, 0, if model == m then tokens else 0))
  {
    hide At;
    AtUpdated(first, model, At(first, model) + tokens, m);
  }

  lemma SplitPlus(a: Split, b: Split, c: Split)
    ensures a.Plus(b).Plus(c) == a.Plus(b.Plus(c)) && a.Plus(NOTHING) == a
  {
  }

  lemma NoBucketBack(b: Bucket, gap: int)
    requires gap < 0
    ensures !InRange(b, gap)
  {
  }

  lemma AddToEntry(ledger: Ledger, gap: int, r: Record, b: Bucket, m: string)
    requires gap >= 0
    ensures var key := (BucketOf(gap), r.model);
            At(ledger[key := At(ledger, key) + r.cacheCreation], (b, m))
            == At(ledger, (b, m)) + if r.model == m && InRange(b, gap) then r.cacheCreation else 0
  {
  }

  method AddSession(t: seq<Record>, ledger: Ledger, first: map<string, nat>)
    returns (ledger': Ledger, first': map<string, nat>)
    requires |t| >= 2
    ensures forall m :: ByModel(ledger', first', m) == ByModel(ledger, first, m).Plus(SessionSplit(t, m, |t|))
    ensures forall b, m :: At(ledger', (b, m)) == At(ledger, (b, m)) + InBucketRange(t, m, |t|, b)
    ensures forall m :: At(first', m) == At(first, m) + FirstTokens(t, m)
  {
    hide ByModel, Split.Plus, InBucket, BucketOf, InRange;
    ledger' := ledger;
    first' := first[t[0].model := At(first, t[0].model) + t[0].cacheCreation];
    forall m ensures ByModel(ledger', first', m) == ByModel(ledger, first, m).Plus(SessionSplit(t, m, 1)) {
      AddToFirst(ledger, first, t[0].model, t[0].cacheCreation, m);
    }
    for i := 1 to |t|
      invariant forall m :: ByModel(ledger', first', m) == ByModel(ledger, first, m).Plus(SessionSplit(t, m, i))
      invariant forall b, m :: At(ledger', (b, m)) == At(ledger, (b, m)) + InBucketRange(t, m, i, b)
    {
      var gap := t[i].timestamp - t[i - 1].timestamp;
      ghost var before := ledger';
      if gap >= 0 {
        var key := (BucketOf(gap), t[i].model);
        ledger' := ledger'[key := At(ledger', key) + t[i].cacheCreation];
      }
      forall b, m ensures At(ledger', (b, m)) == At(ledger, (b, m)) + InBucketRange(t, m, i + 1, b) {
        if gap >= 0 {
          AddToEntry(before, gap, t[i], b, m);
        } else {
          NoBucketBack(b, gap);
        }
      }
      forall m ensures ByModel(ledger', first', m) == ByModel(ledger, first, m).Plus(SessionSplit(t, m, i + 1)) {
        AddToLedger(before, first', BucketOf(gap), t[i].model, t[i].cacheCreation, m);
        SplitPlus(ByModel(ledger, first, m), SessionSplit(t, m, i),
                  if gap < 0 then NOTHING else InBucket(BucketOf(gap), Share(t[i], m)));
        SplitPlus(SessionSplit(t, m, i), NOTHING, NOTHING);
      }
    }
  }

  method Analyze(files: seq<seq<Record>>) returns (ledger: Ledger, first: map<string, nat>, sessions: nat)
    ensures forall m :: ByModel(ledger, first, m)
                        == SplitOf(Sessions(files, |files|), m, |Sessions(files, |files|)|)
    ensures sessions == |Sessions(files, |files|)|
    ensures forall b, m :: At(ledger, (b, m)) == AllInBucketRange(Sessions(files, |files|), m, sessions, b)
    ensures forall m :: At(first, m) == AllFirstTokens(Sessions(files, |files|), m, sessions)
  {
    hide ByModel, SessionSplit, SortByTime, Kept, Split.Plus, InBucketRange, FirstTokens;
    ledger, first, sessions := map[], map[], 0;
    EmptyLedger();
    var seen: set<string> := {};
    for k := 0 to |files|
      invariant seen == SeenBefore(files, k)
      invariant sessions == |Sessions(files, k)|
      invariant forall m :: ByModel(ledger, first, m) == SplitOf(Sessions(files, k), m, sessions)
      invariant forall b, m :: At(ledger, (b, m)) == AllInBucketRange(Sessions(files, k), m, sessions, b)
      invariant forall m :: At(first, m) == AllFirstTokens(Sessions(files, k), m, sessions)
    {
      var t;
      t, seen := TurnsOf(files[k], seen);
      if |t| >= 2 {
        ghost var kept := Kept(files[k], SeenBefore(files, k));
        assert Sessions(files, k + 1) == Sessions(files, k) + [kept];
        ledger, first := AddSession(t, ledger, first);
        OneMoreSession(Sessions(files, k), kept);
        sessions := sessions + 1;
      } else {
        assert Sessions(files, k + 1) == Sessions(files, k) + [];
        assert Sessions(files, k) + [] == Sessions(files, k);
      }
    }
  }

  lemma OneMoreSession(x: seq<seq<Record>>, kept: seq<Record>)
    ensures var y, n, t := x + [kept], |x|, SortByTime(kept);
            && (forall m :: SplitOf(y, m, n + 1) == SplitOf(x, m, n).Plus(SessionSplit(t, m, |t|)))
            && (forall b, m :: AllInBucketRange(y, m, n + 1, b)
                               == AllInBucketRange(x, m, n, b) + InBucketRange(t, m, |t|, b))
            && (forall m :: AllFirstTokens(y, m, n + 1) == AllFirstTokens(x, m, n) + FirstTokens(t, m))
  {
    hide SessionSplit, SortByTime, InBucketRange, FirstTokens, Split.Plus;
    var y, n := x + [kept], |x|;
    forall m
      ensures SplitOf(y, m, n) == SplitOf(x, m, n) && AllFirstTokens(y, m, n) == AllFirstTokens(x, m, n)
    {
      SplitAgree(x, y, m, n);
    }
    forall b, m
      ensures AllInBucketRange(y, m, n, b) == AllInBucketRange(x, m, n, b)
    {
      RangesAgree(x, y, m, n, b);
    }
  }

  lemma {:induction false} RangesAgree(
    x: seq<seq<Record>>, y: seq<seq<Record>>, model: string, k: nat, b: Bucket)
    requires x <= y && k <= |x|
    ensures AllInBucketRange(x, model, k, b) == AllInBucketRange(y, model, k, b)
  {
    if k > 0 {
      RangesAgree(x, y, model, k - 1, b);
    }
  }

  lemma {:induction false} SplitAgree(a: seq<seq<Record>>, b: seq<seq<Record>>, model: string, k: nat)
    requires a <= b && k <= |a|
    ensures SplitOf(a, model, k) == SplitOf(b, model, k)
    ensures AllFirstTokens(a, model, k) == AllFirstTokens(b, model, k)
  {
    if k > 0 {
      SplitAgree(a, b, model, k - 1);
    }
  }

  lemma EmptyLedger()
    ensures forall m :: ByModel(map[], map[], m) == NOTHING
  {
  }

  // ---------------------------------------------------------------- the decision

  datatype TtlPrice = TtlPrice(w5: real, w1h: real, read: real, input: real)

  const SONNET := TtlPrice(3.75, 6.0, 0.3, 3.0)
  const OPUS_6 := TtlPrice(6.25, 10.0, 0.5, 5.0)
  const HAIKU := TtlPrice(1.25, 2.0, 0.1, 1.0)
  const OPUS_7 := TtlPrice(18.75, 30.0, 1.5, 15.0)

  /** The model name up to a bracketed suffix. */
  function BaseName(model: string): string {
    if model == "" || model[0] == '[' then "" else [model[0]] + BaseName(model[1..])
  }

  /** Known names and names that contain one have its price; every other model is priced as Sonnet. */
  function PriceFor(model: string): TtlPrice {
    var base := BaseName(model);
    if Contains(base, "claude-sonnet-4-6") then SONNET
    else if Contains(base, "claude-opus-4-6") then OPUS_6
    else if Contains(base, "claude-haiku-4-5") then HAIKU
    else if Contains(base, "claude-opus-4-7") then OPUS_7
    else SONNET
  }

  /** The name is cut at the first bracket. */
  lemma {:induction false} BaseNameCuts(name: string, suffix: string)
    requires '[' !in name
    ensures BaseName(name) == name && BaseName(name + "[" + suffix) == name
  {
    if name != "" {
      BaseNameCuts(name[1..], suffix);
      assert (name + "[" + suffix)[1..] == name[1..] + "[" + suffix;
      assert name == [name[0]] + name[1..];
    } else {
      assert (name + "[" + suffix)[0] == '[';
    }
  }

  /** The price table, and the first entry that the name contains; anything else is Sonnet's. */
  lemma PriceTable(model: string)
    ensures var base, p := BaseName(model), PriceFor(model);
            var sonnet, opus6 := Contains(base, "claude-sonnet-4-6"), Contains(base, "claude-opus-4-6");
            var haiku, opus7 := Contains(base, "claude-haiku-4-5"), Contains(base, "claude-opus-4-7");
            && (sonnet ==> p == TtlPrice(3.75, 6.0, 0.3, 3.0))
            && (!sonnet && opus6 ==> p == TtlPrice(6.25, 10.0, 0.5, 5.0))
            && (!sonnet && !opus6 && haiku ==> p == TtlPrice(1.25, 2.0, 0.1, 1.0))
            && (!sonnet && !opus6 && !haiku && opus7 ==> p == TtlPrice(18.75, 30.0, 1.5, 15.0))
            && (!sonnet && !opus6 && !haiku && !opus7 ==> p == TtlPrice(3.75, 6.0, 0.3, 3.0))
  {
    hide Contains, BaseName;
  }

  lemma Longer(text: string, part: string)
    requires |text| < |part|
    ensures !Contains(text, part)
  {
    ContainsIff(text, part);
  }

  /** The four known names have their own prices, with and without a bracketed suffix. */
  lemma KnownPrices(suffix: string)
    ensures PriceFor("claude-sonnet-4-6") == PriceFor("claude-sonnet-4-6" + "[" + suffix)
            == TtlPrice(3.75, 6.0, 0.3, 3.0)
    ensures PriceFor("claude-opus-4-6") == PriceFor("claude-opus-4-6" + "[" + suffix)
            == TtlPrice(6.25, 10.0, 0.5, 5.0)
    ensures PriceFor("claude-haiku-4-5") == PriceFor("claude-haiku-4-5" + "[" + suffix)
            == TtlPrice(1.25, 2.0, 0.1, 1.0)
    ensures PriceFor("claude-opus-4-7") == PriceFor("claude-opus-4-7" + "[" + suffix)
            == TtlPrice(18.75, 30.0, 1.5, 15.0)
  {
    hide BaseName;
    BaseNameCuts("claude-sonnet-4-6", suffix);
    BaseNameCuts("claude-opus-4-6", suffix);
    BaseNameCuts("claude-haiku-4-5", suffix);
    BaseNameCuts("claude-opus-4-7", suffix);
    NamesDiffer();
  }

  lemma ContainsItself(text: string)
    ensures Contains(text, text)
  {
  }

  lemma NamesDiffer()
    ensures Contains("claude-sonnet-4-6", "claude-sonnet-4-6")
    ensures !Contains("claude-opus-4-6", "claude-sonnet-4-6") && Contains("claude-opus-4-6", "claude-opus-4-6")
    ensures !Contains("claude-haiku-4-5", "claude-sonnet-4-6") && !Contains("claude-haiku-4-5", "claude-opus-4-6")
    ensures Contains("claude-haiku-4-5", "claude-haiku-4-5")
    ensures !Contains("claude-opus-4-7", "claude-sonnet-4-6") && !Contains("claude-opus-4-7", "claude-opus-4-6")
    ensures !Contains("claude-opus-4-7", "claude-haiku-4-5") && Contains("claude-opus-4-7", "claude-opus-4-7")
  {
    hide Contains;
    ContainsItself("claude-sonnet-4-6");
    ContainsItself("claude-opus-4-6");
    ContainsItself("claude-haiku-4-5");
    ContainsItself("claude-opus-4-7");
    Longer("claude-opus-4-6", "claude-sonnet-4-6");
    Longer("claude-haiku-4-5", "claude-sonnet-4-6");
    Longer("claude-opus-4-7", "claude-sonnet-4-6");
    Longer("claude-opus-4-7", "claude-haiku-4-5");
    NotAligned("claude-opus-4-7", "claude-opus-4-6", 14);
    NotAligned("claude-haiku-4-5", "claude-opus-4-6", 7);
    assert "claude-haiku-4-5"[1..] == "laude-haiku-4-5";
    NotAligned("laude-haiku-4-5", "claude-opus-4-6", 0);
  }

  /** Part is not where the text starts, and does not fit further on unless the text is longer. */
  lemma NotAligned(text: string, part: string, i: nat)
    requires i < |part| <= |text| && text[i] != part[i]
    ensures Contains(text, part) <==> Contains(text[1..], part)
    ensures |text| == |part| ==> !Contains(text, part)
  {
    if |text| == |part| {
      Longer(text[1..], part);
    }
  }

  function PerMillion(tokens: nat, price: real): real {
    tokens as real * price / 1000000.0
  }

  /** Strategy A: every write at the five-minute price. */
  function CostA(s: Split, p: TtlPrice): real {
    PerMillion(s.inWindow, p.w5) + PerMillion(s.avoidable, p.w5) + PerMillion(s.unavoidable, p.w5)
  }

  /** Strategy B: every write at the one-hour price, avoidable rewrites become reads. */
  function CostB(s: Split, p: TtlPrice): real {
    PerMillion(s.inWindow, p.w1h) + PerMillion(s.avoidable, p.read) + PerMillion(s.unavoidable, p.w1h)
  }

  /** Either way the difference is the model's input price times a weight of its tokens. */
  lemma RowDifference(s: Split, model: string)
    ensures (CostA(s, PriceFor(model)) - CostB(s, PriceFor(model))) * 20000000.0
            == PriceFor(model).input * (23 * s.avoidable - 15 * (s.inWindow + s.unavoidable)) as real
    ensures PriceFor(model).input > 0.0
  {
    var p := PriceFor(model);
    assert p == SONNET || p == OPUS_6 || p == HAIKU || p == OPUS_7;
    var a, o := s.avoidable as real, (s.inWindow + s.unavoidable) as real;
    assert o == s.inWindow as real + s.unavoidable as real;
    assert (CostA(s, p) - CostB(s, p)) * 20000000.0 == p.input * (23.0 * a - 15.0 * o);
    assert (23 * s.avoidable - 15 * (s.inWindow + s.unavoidable)) as real == 23.0 * a - 15.0 * o;
  }

  /** Both strategies in terms of the input price: a five-minute write is a quarter dearer, a
      one-hour write twice as dear, a read a tenth. */
  lemma StrategyCosts(s: Split, model: string)
    ensures var input := PriceFor(model).input;
            && CostA(s, PriceFor(model)) * 1000000.0 == 1.25 * input * s.Total() as real
            && CostB(s, PriceFor(model)) * 1000000.0
               == 2.0 * input * (s.inWindow + s.unavoidable) as real + 0.1 * input * s.avoidable as real
  {
    var p := PriceFor(model);
    assert p == SONNET || p == OPUS_6 || p == HAIKU || p == OPUS_7;
    var i, a, u := s.inWindow as real, s.avoidable as real, s.unavoidable as real;
    assert s.Total() as real == i + a + u && (s.inWindow + s.unavoidable) as real == i + u;
  }

  /** For every model, known or not, the hour pays iff 23 avoidable tokens outweigh 15 others. */
  lemma HourPaysIff(s: Split, model: string)
    ensures CostB(s, PriceFor(model)) < CostA(s, PriceFor(model))
            <==> 23 * s.avoidable > 15 * (s.inWindow + s.unavoidable)
  {
    hide CostA, CostB, PriceFor;
    RowDifference(s, model);
    PositiveProduct(PriceFor(model).input, 23 * s.avoidable - 15 * (s.inWindow + s.unavoidable));
  }

  lemma PositiveProduct(price: real, n: int)
    requires price > 0.0
    ensures price * n as real > 0.0 <==> n > 0
  {
    if n <= 0 {
      assert price * (0 - n) as real >= 0.0;
      assert (0 - n) as real == 0.0 - n as real;
    } else {
      assert n as real > 0.0;
    }
  }

  // ---------------------------------------------------------------- the bottom line

  /** One line of the report. */
  datatype Row = Row(model: string, split: Split)

  function TotalA(rows: seq<Row>, k: nat): real
    requires k <= |rows|
  {
    if k == 0 then 0.0 else TotalA(rows, k - 1) + CostA(rows[k - 1].split, PriceFor(rows[k - 1].model))
  }

  function TotalB(rows: seq<Row>, k: nat): real
    requires k <= |rows|
  {
    if k == 0 then 0.0 else TotalB(rows, k - 1) + CostB(rows[k - 1].split, PriceFor(rows[k - 1].model))
  }

  /** 23 avoidable against 15 other tokens, each at its model's input price. */
  function Weight(rows: seq<Row>, k: nat): real
    requires k <= |rows|
  {
    if k == 0 then 0.0
    else
      var s := rows[k - 1].split;
      Weight(rows, k - 1)
      + PriceFor(rows[k - 1].model).input * (23 * s.avoidable - 15 * (s.inWindow + s.unavoidable)) as real
  }

  lemma {:induction false} TotalsDifference(rows: seq<Row>, k: nat)
    requires k <= |rows|
    ensures (TotalA(rows, k) - TotalB(rows, k)) * 20000000.0 == Weight(rows, k)
  {
    hide CostA, CostB, PriceFor;
    if k > 0 {
      TotalsDifference(rows, k - 1);
      RowDifference(rows[k - 1].split, rows[k - 1].model);
    }
  }

  /** The verdict over any mix of models: the hour pays iff the priced weight is positive. */
  lemma HourPaysOverallIff(rows: seq<Row>)
    ensures TotalB(rows, |rows|) < TotalA(rows, |rows|) <==> Weight(rows, |rows|) > 0.0
  {
    hide TotalA, TotalB, Weight;
    TotalsDifference(rows, |rows|);
  }

  function ModelsOf(ledger: Ledger, first: map<string, nat>): set<string> {
    first.Keys + set key | key in ledger :: key.1
  }

  /** The models of the two dictionaries; every other model has no tokens at all. */
  lemma ModelsMeaning(ledger: Ledger, first: map<string, nat>, model: string)
    ensures model in ModelsOf(ledger, first) <==> model in first || exists b :: (b, model) in ledger
    ensures model !in ModelsOf(ledger, first) ==> ByModel(ledger, first, model) == NOTHING
  {
    assert forall b :: (b, model) in ledger ==> (b, model).1 in ModelsOf(ledger, first);
  }

  /** The report's rows, one per model in no particular order, with the two totals. */
  method CompareStrategies(ledger: Ledger, first: map<string, nat>)
    returns (rows: seq<Row>, aTotal: real, bTotal: real)
    ensures forall i :: 0 <= i < |rows| ==>
              rows[i].model in ModelsOf(ledger, first) && rows[i].split == ByModel(ledger, first, rows[i].model)
    ensures forall i, j :: 0 <= i < j < |rows| ==> rows[i].model != rows[j].model
    ensures |rows| == |ModelsOf(ledger, first)|
    ensures aTotal == TotalA(rows, |rows|) && bTotal == TotalB(rows, |rows|)
    ensures (aTotal - bTotal) * 20000000.0 == Weight(rows, |rows|)
  {
    hide CostA, CostB, PriceFor, ByModel, ModelsOf, TotalA, TotalB, Weight;
    rows, aTotal, bTotal := [], 0.0, 0.0;
    TotalsOfNone();
    var open := ModelsOf(ledger, first);
    while open != {}
      invariant open <= ModelsOf(ledger, first) && |rows| + |open| == |ModelsOf(ledger, first)|
      invariant forall i :: 0 <= i < |rows| ==>
          rows[i].model in ModelsOf(ledger, first) && rows[i].model !in open
          && rows[i].split == ByModel(ledger, first, rows[i].model)
      invariant forall i, j :: 0 <= i < j < |rows| ==> rows[i].model != rows[j].model
      invariant aTotal == TotalA(rows, |rows|) && bTotal == TotalB(rows, |rows|)
      decreases open
    {
      var model :| model in open;
      var row := Row(model, ByModel(ledger, first, model));
      TotalsOfOneMore(rows, row);
      rows := rows + [row];
      aTotal := aTotal + CostA(row.split, PriceFor(model));
      bTotal := bTotal + CostB(row.split, PriceFor(model));
      open := open - {model};
    }
    TotalsDifference(rows, |rows|);
  }

  lemma {:induction false} TotalsAgree(rows: seq<Row>, more: seq<Row>, k: nat)
    requires rows <= more && k <= |rows|
    ensures TotalA(more, k) == TotalA(rows, k) && TotalB(more, k) == TotalB(rows, k)
  {
    hide CostA, CostB, PriceFor;
    if k > 0 {
      TotalsAgree(rows, more, k - 1);
    }
  }

  lemma TotalsOfNone()
    ensures TotalA([], 0) == 0.0 && TotalB([], 0) == 0.0
  {
  }

  lemma TotalsOfOneMore(rows: seq<Row>, row: Row)
    ensures TotalA(rows + [row], |rows| + 1) == TotalA(rows, |rows|) + CostA(row.split, PriceFor(row.model))
    ensures TotalB(rows + [row], |rows| + 1) == TotalB(rows, |rows|) + CostB(row.split, PriceFor(row.model))
  {
    hide CostA, CostB, PriceFor;
    TotalsAgree(rows, rows + [row], |rows|);
  }
}
