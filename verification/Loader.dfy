/** Grouping a session transcript into request turns.

    Events arrive already classified: a user message, an assistant message that carries a
    request id, or anything else (blank lines, broken JSON, other roles), which is skipped. */
module Loader {
  import opened Messages
  import opened Replay

  datatype Usage = Usage(output: int, input: int, cacheRead: int, cacheWrite: int)

  datatype Event =
    | UserEvent(message: Message)
    | AssistantEvent(requestId: string, model: string, timestamp: int, content: Content, usage: Usage)
    | OtherEvent

  /** The canonical JSON key of a block; blocks with one key are the same block. */
  type BlockKey = Block -> string

  // ---------------------------------------------------------------- specification

  /** The blocks of an assistant message: text is one text block, blocks that are not JSON
      objects are dropped. */
  function BlocksOf(content: Content): (blocks: seq<Block>)
    ensures forall j :: 0 <= j < |blocks| ==> blocks[j].Dict?
  {
    match content
    case Text(text) => if text == "" then [] else [Dict("text", text, false, map[])]
    case Blocks(bs) => Objects(bs)
    case Missing => []
  }

  function Objects(bs: seq<Block>): (blocks: seq<Block>)
    ensures forall j :: 0 <= j < |blocks| ==> blocks[j].Dict?
  {
    if bs == [] then [] else Objects(bs[..|bs| - 1]) + if bs[|bs| - 1].Dict? then [bs[|bs| - 1]] else []
  }

  function Accepted(events: seq<Event>): (a: seq<Event>)
    ensures forall j :: 0 <= j < |a| ==> !a[j].OtherEvent?
  {
    if events == [] then []
    else Accepted(events[..|events| - 1]) + if events[|events| - 1].OtherEvent? then [] else [events[|events| - 1]]
  }

  /** Event j continues the run that event i belongs to. */
  predicate SameRequest(a: seq<Event>, i: nat, j: nat)
    requires i < |a| && j < |a|
  {
    a[i].AssistantEvent? && a[j].AssistantEvent? && a[i].requestId == a[j].requestId
  }

  /** The end of the longest run of events for one request that starts at i, given that
      it reaches k. */
  function RunEnd(a: seq<Event>, i: nat, k: nat): (e: nat)
    requires i < k <= |a|
    ensures k <= e <= |a|
    ensures forall j :: k <= j < e ==> SameRequest(a, i, j)
    ensures e < |a| ==> !SameRequest(a, i, e)
    decreases |a| - k
  {
    if k < |a| && SameRequest(a, i, k) then RunEnd(a, i, k + 1) else k
  }

  /** The longest run of events for one request that starts at i. */
  function RunAt(a: seq<Event>, i: nat): (run: seq<Event>)
    requires i < |a| && a[i].AssistantEvent?
    ensures run != [] && forall j :: 0 <= j < |run| ==> run[j].AssistantEvent?
  {
    var run := a[i..RunEnd(a, i, i + 1)];
    assert forall j :: 0 < j < |run| ==> run[j] == a[i + j] && SameRequest(a, i, i + j);
    run
  }

  function Max(a: nat, b: int): nat {
    if b > a then b else a
  }

  predicate Seen(key: BlockKey, blocks: seq<Block>, k: string) {
    exists j :: 0 <= j < |blocks| && key(blocks[j]) == k
  }

  /** Appends the blocks whose key has not been seen. */
  function AddBlocks(key: BlockKey, blocks: seq<Block>, more: seq<Block>): seq<Block>
    decreases |more|
  {
    if more == [] then blocks
    else
      var rest := AddBlocks(key, blocks, more[..|more| - 1]);
      var b := more[|more| - 1];
      if Seen(key, rest, key(b)) then rest else rest + [b]
  }

  /** All blocks of a stretch of assistant events, in order. */
  function AllBlocks(run: seq<Event>): seq<Block>
    requires forall j :: 0 <= j < |run| ==> run[j].AssistantEvent?
  {
    if run == [] then [] else AllBlocks(run[..|run| - 1]) + BlocksOf(run[|run| - 1].content)
  }

  function MaxOf(run: seq<Event>, field: Usage -> int): nat
    requires forall j :: 0 <= j < |run| ==> run[j].AssistantEvent?
  {
    if run == [] then 0 else Max(MaxOf(run[..|run| - 1], field), field(run[|run| - 1].usage))
  }

  /** The turn of one whole run. */
  function TurnOf(key: BlockKey, run: seq<Event>, input: seq<Message>): ReplayTurn
    requires run != [] && forall j :: 0 <= j < |run| ==> run[j].AssistantEvent?
  {
    var blocks := AddBlocks(key, [], AllBlocks(run));
    ReplayTurn(run[0].requestId, run[0].model, run[0].timestamp, input,
               Message("assistant", if blocks == [] then Text("") else Blocks(blocks), map[]),
               MaxOf(run, (u: Usage) => u.output), MaxOf(run, (u: Usage) => u.input),
               MaxOf(run, (u: Usage) => u.cacheRead), MaxOf(run, (u: Usage) => u.cacheWrite))
  }

  /** One turn per maximal run.  Its input is the user message directly in front of it. */
  function TurnsFrom(key: BlockKey, a: seq<Event>, i: nat, input: seq<Message>): seq<ReplayTurn>
    requires i <= |a| && forall j :: 0 <= j < |a| ==> !a[j].OtherEvent?
    decreases |a| - i
  {
    if i == |a| then []
    else if a[i].UserEvent? then TurnsFrom(key, a, i + 1, [a[i].message])
    else
      [TurnOf(key, RunAt(a, i), input)] + TurnsFrom(key, a, RunEnd(a, i, i + 1), [])
  }

  function SessionTurns(key: BlockKey, events: seq<Event>): seq<ReplayTurn> {
    TurnsFrom(key, Accepted(events), 0, [])
  }

  // ---------------------------------------------------------------- the loader

  datatype Group = Group(
    requestId: string, model: string, timestamp: int, blocks: seq<Block>, seen: set<string>,
    output: nat, input: nat, cacheRead: nat, cacheWrite: nat)

  /** The open group has absorbed exactly the events of `run`. */
  ghost predicate GroupOf(key: BlockKey, g: Group, run: seq<Event>) {
    && run != [] && (forall j :: 0 <= j < |run| ==> run[j].AssistantEvent?)
    && g.requestId == run[0].requestId && g.model == run[0].model && g.timestamp == run[0].timestamp
    && g.blocks == AddBlocks(key, [], AllBlocks(run))
    && (forall k :: k in g.seen <==> Seen(key, g.blocks, k))
    && g.output == MaxOf(run, (u: Usage) => u.output) && g.input == MaxOf(run, (u: Usage) => u.input)
    && g.cacheRead == MaxOf(run, (u: Usage) => u.cacheRead) && g.cacheWrite == MaxOf(run, (u: Usage) => u.cacheWrite)
  }

  function FinalizeGroup(group: Option<Group>, pending: seq<Message>): seq<ReplayTurn> {
    match group
    case None => []
    case Some(g) =>
      [ReplayTurn(g.requestId, g.model, g.timestamp, pending,
                  Message("assistant", if g.blocks == [] then Text("") else Blocks(g.blocks), map[]),
                  g.output, g.input, g.cacheRead, g.cacheWrite)]
  }

  lemma {:induction false} AddBlocksConcat(key: BlockKey, blocks: seq<Block>, m: seq<Block>, n: seq<Block>)
    ensures AddBlocks(key, AddBlocks(key, blocks, m), n) == AddBlocks(key, blocks, m + n)
    decreases |n|
  {
    if n == [] {
      assert m + n == m;
    } else {
      AddBlocksConcat(key, blocks, m, n[..|n| - 1]);
      assert (m + n)[..|m + n| - 1] == m + n[..|n| - 1];
    }
  }

  method AbsorbBlocks(key: BlockKey, blocks: seq<Block>, seen: set<string>, more: seq<Block>)
    returns (blocks': seq<Block>, seen': set<string>)
    requires forall k :: k in seen <==> Seen(key, blocks, k)
    ensures blocks' == AddBlocks(key, blocks, more)
    ensures forall k :: k in seen' <==> Seen(key, blocks', k)
  {
    blocks', seen' := blocks, seen;
    for i := 0 to |more|
      invariant blocks' == AddBlocks(key, blocks, more[..i])
      invariant forall k :: k in seen' <==> Seen(key, blocks', k)
    {
      var k := key(more[i]);
      assert more[..i + 1][..i] == more[..i];
      if k !in seen' {
        SeenAppend(key, blocks', more[i]);
        seen' := seen' + {k};
        blocks' := blocks' + [more[i]];
      }
    }
    assert more[..|more|] == more;
  }

  lemma SeenAppend(key: BlockKey, blocks: seq<Block>, b: Block)
    ensures forall k :: Seen(key, blocks + [b], k) <==> Seen(key, blocks, k) || k == key(b)
  {
    forall k
      ensures Seen(key, blocks + [b], k) <==> Seen(key, blocks, k) || k == key(b)
    {
      assert (blocks + [b])[|blocks|] == b;
      if Seen(key, blocks, k) {
        var j :| 0 <= j < |blocks| && key(blocks[j]) == k;
        assert key((blocks + [b])[j]) == k;
      }
    }
  }

  /** A new group for the first event of a run. */
  function OpenGroup(e: Event): Group
    requires e.AssistantEvent?
  {
    Group(e.requestId, e.model, e.timestamp, [], {}, 0, 0, 0, 0)
  }

  method Absorb(key: BlockKey, g: Group, ghost run: seq<Event>, e: Event) returns (g': Group)
    requires e.AssistantEvent?
    requires if run == [] then g == OpenGroup(e) else GroupOf(key, g, run)
    ensures GroupOf(key, g', run + [e])
  {
    var blocks, seen := AbsorbBlocks(key, g.blocks, g.seen, BlocksOf(e.content));
    g' := g.(blocks := blocks, seen := seen,
             output := Max(g.output, e.usage.output), input := Max(g.input, e.usage.input),
             cacheRead := Max(g.cacheRead, e.usage.cacheRead), cacheWrite := Max(g.cacheWrite, e.usage.cacheWrite));
    assert (run + [e])[..|run + [e]| - 1] == run;
    AddBlocksConcat(key, [], AllBlocks(run), BlocksOf(e.content));
  }

  /** The turns that the rest of the transcript still adds to the ones closed so far. */
  ghost function Outstanding(
    key: BlockKey, a: seq<Event>, start: nat, i: nat, open: bool, pending: seq<Message>): seq<ReplayTurn>
    requires start <= i <= |a| && (open ==> start < i) && forall j :: 0 <= j < |a| ==> !a[j].OtherEvent?
    requires open ==> a[start].AssistantEvent?
  {
    if !open then TurnsFrom(key, a, i, pending)
    else
      [TurnOf(key, RunAt(a, start), pending)] + TurnsFrom(key, a, RunEnd(a, start, start + 1), [])
  }

  /** The loader's view after i accepted events is consistent. */
  ghost predicate LoaderAt(key: BlockKey, a: seq<Event>, start: nat, i: nat, group: Option<Group>) {
    && start <= i <= |a| && (forall j :: 0 <= j < |a| ==> !a[j].OtherEvent?)
    && (group.None? ==> start == i)
    && (group.Some? ==> start < i && a[start].AssistantEvent? && i <= RunEnd(a, start, start + 1)
                        && GroupOf(key, group.value, a[start..i]))
  }

  lemma GroupIsTurn(key: BlockKey, g: Group, run: seq<Event>, pending: seq<Message>)
    requires GroupOf(key, g, run)
    ensures FinalizeGroup(Some(g), pending) == [TurnOf(key, run, pending)]
  {
    hide MaxOf, AddBlocks, AllBlocks, Seen;
  }

  /** Where the run of the open group ends, closing it yields its turn. */
  lemma CloseRun(key: BlockKey, a: seq<Event>, start: nat, i: nat, group: Option<Group>, pending: seq<Message>)
    requires LoaderAt(key, a, start, i, group)
    requires i == |a| || group.None? || !SameRequest(a, start, i)
    ensures Outstanding(key, a, start, i, group.Some?, pending)
            == FinalizeGroup(group, pending) + TurnsFrom(key, a, i, if group.Some? then [] else pending)
  {
    hide TurnOf, TurnsFrom, FinalizeGroup;
    if group.Some? {
      GroupIsTurn(key, group.value, a[start..i], pending);
      assert RunEnd(a, start, start + 1) == i;
    } else {
      NothingOpen(pending);
    }
  }

  lemma NothingOpen(pending: seq<Message>)
    ensures FinalizeGroup(None, pending) == []
  {
  }

  /** An assistant event with nothing open starts the run of the next turn. */
  lemma OpenRun(key: BlockKey, a: seq<Event>, i: nat, pending: seq<Message>)
    requires i < |a| && a[i].AssistantEvent? && forall j :: 0 <= j < |a| ==> !a[j].OtherEvent?
    ensures TurnsFrom(key, a, i, pending) == Outstanding(key, a, i, i + 1, true, pending)
  {
    hide TurnOf;
  }

  /** An open run goes on exactly while its request id does. */
  lemma StaysOpen(key: BlockKey, a: seq<Event>, start: nat, i: nat, g: Group)
    requires LoaderAt(key, a, start, i, Some(g)) && i < |a|
    ensures g.requestId == a[start].requestId
    ensures SameRequest(a, start, i) <==> i < RunEnd(a, start, start + 1)
  {
    assert a[start..i][0] == a[start];
  }

  /** A user event closes the open group and becomes the only pending message. */
  method OnUser(
    key: BlockKey, ghost a: seq<Event>, ghost start: nat, ghost i: nat, message: Message,
    group: Option<Group>, pending: seq<Message>, turns: seq<ReplayTurn>)
    returns (turns': seq<ReplayTurn>, pending': seq<Message>)
    requires LoaderAt(key, a, start, i, group) && i < |a| && a[i] == UserEvent(message)
    ensures turns' + Outstanding(key, a, i + 1, i + 1, false, pending')
            == turns + Outstanding(key, a, start, i, group.Some?, pending)
  {
    hide TurnOf, GroupOf, FinalizeGroup, RunEnd, RunAt;
    CloseRun(key, a, start, i, group, pending);
    turns' := turns + FinalizeGroup(group, pending);
    pending' := [message];
    ghost var rest := TurnsFrom(key, a, i, if group.Some? then [] else pending);
    assert rest == TurnsFrom(key, a, i + 1, [message]);
    assert turns' + rest == turns + (FinalizeGroup(group, pending) + rest);
  }

  /** An assistant event joins the open group, or closes it and opens its own. */
  method OnAssistant(
    key: BlockKey, ghost a: seq<Event>, ghost start: nat, ghost i: nat, event: Event,
    group: Option<Group>, pending: seq<Message>, turns: seq<ReplayTurn>)
    returns (turns': seq<ReplayTurn>, pending': seq<Message>, group': Option<Group>, ghost start': nat)
    requires LoaderAt(key, a, start, i, group) && i < |a| && a[i] == event && event.AssistantEvent?
    ensures LoaderAt(key, a, start', i + 1, group') && group'.Some?
    ensures turns' + Outstanding(key, a, start', i + 1, true, pending')
            == turns + Outstanding(key, a, start, i, group.Some?, pending)
  {
    hide TurnOf, TurnsFrom, GroupOf, FinalizeGroup;
    turns', pending', start' := turns, pending, start;
    if group.Some? {
      StaysOpen(key, a, start, i, group.value);
    }
    var g: Group;
    if group.None? || group.value.requestId != event.requestId {
      CloseRun(key, a, start, i, group, pending);
      turns' := turns + FinalizeGroup(group, pending);
      if group.Some? {
        pending' := [];
      }
      g := OpenGroup(event);
      start' := i;
      OpenRun(key, a, i, pending');
    } else {
      g := group.value;
    }
    assert a[start'..i + 1] == a[start'..i] + [event];
    g := Absorb(key, g, a[start'..i], event);
    group' := Some(g);
  }

  method LoadSessionReplay(key: BlockKey, sessionId: string, project: string, events: seq<Event>)
    returns (replay: Option<SessionReplay>)
    ensures replay == if SessionTurns(key, events) == [] then None
                      else Some(SessionReplay(sessionId, project, SessionTurns(key, events)))
  {
    hide TurnOf, TurnsFrom, GroupOf, FinalizeGroup, RunEnd, SameRequest;
    var pending: seq<Message> := [];
    var turns: seq<ReplayTurn> := [];
    var group: Option<Group> := None;
    ghost var a := Accepted(events);
    ghost var start: nat, i: nat := 0, 0;  // the open group covers a[start..i]

    for n := 0 to |events|
      invariant LoaderAt(key, a, start, i, group) && a[..i] == Accepted(events[..n])
      invariant SessionTurns(key, events) == turns + Outstanding(key, a, start, i, group.Some?, pending)
    {
      var event := events[n];
      AcceptedGrows(events, n);
      assert !event.OtherEvent? ==> i < |a| && a[i] == event && a[..i + 1] == a[..i] + [event];
      match event
      case UserEvent(message) =>
        turns, pending := OnUser(key, a, start, i, message, group, pending, turns);
        group := None;
        i := i + 1;
        start := i;
      case AssistantEvent(_, _, _, _, _) =>
        turns, pending, group, start := OnAssistant(key, a, start, i, event, group, pending, turns);
        i := i + 1;
      case OtherEvent =>
    }

    assert events[..|events|] == events;
    assert i == |a[..i]| == |a|;
    CloseRun(key, a, start, i, group, pending);
    AllClosed(key, a, if group.Some? then [] else pending);
    turns := turns + FinalizeGroup(group, pending);
    assert SessionTurns(key, events) == turns;
    if turns == [] {
      return None;
    }
    return Some(SessionReplay(sessionId, project, turns));
  }

  lemma AllClosed(key: BlockKey, a: seq<Event>, input: seq<Message>)
    requires forall j :: 0 <= j < |a| ==> !a[j].OtherEvent?
    ensures TurnsFrom(key, a, |a|, input) == []
  {
  }

  lemma {:induction false} AcceptedPrefix(events: seq<Event>, n: nat)
    requires n <= |events|
    ensures Accepted(events[..n]) <= Accepted(events)
  {
    if n == |events| {
      assert events[..n] == events;
    } else {
      var front := events[..|events| - 1];
      AcceptedPrefix(front, n);
      assert front[..n] == events[..n];
    }
  }

  lemma AcceptedGrows(events: seq<Event>, n: nat)
    requires n < |events|
    ensures Accepted(events[..n + 1]) == Accepted(events[..n]) + if events[n].OtherEvent? then [] else [events[n]]
    ensures Accepted(events[..n + 1]) <= Accepted(events)
  {
    assert events[..n + 1][..n] == events[..n];
    AcceptedPrefix(events, n + 1);
  }
}
