/** Placing cache_control breakpoints on a request. */
module Markers {
  import opened Messages

  datatype System = NoSystem | SystemText(text: string) | SystemBlocks(blocks: seq<Block>)

  // ---------------------------------------------------------------- marking one message

  function TextBlock(text: string): Block {
    Dict("text", text, true, map[])
  }

  /** A string becomes one marked text block; a block list gets its last block marked
      (unless it is empty or ends in something that is not an object). */
  function Mark(m: Message): Message {
    match m.content
    case Text(t) => m.(content := Blocks([TextBlock(t)]))
    case Blocks(bs) =>
      if bs != [] && bs[|bs| - 1].Dict? then
        m.(content := Blocks(bs[|bs| - 1 := bs[|bs| - 1].(cacheControl := true)]))
      else m
    case Missing => m
  }

  predicate Markable(m: Message) {
    m.content.Text? || (m.content.Blocks? && m.content.blocks != [] && m.content.blocks[|m.content.blocks| - 1].Dict?)
  }

  function MarkSystem(system: System): System {
    if system.SystemText? && system.text != "" then SystemBlocks([TextBlock(system.text)]) else system
  }

  // ---------------------------------------------------------------- the two strategies

  /** A third of the way, two thirds of the way and the last message, ascending and distinct. */
  function Positions(n: nat): (ps: seq<nat>)
    requires n > 0
    ensures |ps| <= 3 && forall k :: 0 <= k < |ps| ==> ps[k] < n
    ensures forall j, k :: 0 <= j < k < |ps| ==> ps[j] < ps[k]
  {
    if n < 3 then [n - 1]
    else if 2 * n / 3 == n - 1 then [n / 3, n - 1]
    else [n / 3, 2 * n / 3, n - 1]
  }

  /** The nearest user message at or before position i. */
  function UserAtOrBefore(msgs: seq<Message>, i: int): (r: Option<nat>)
    requires -1 <= i < |msgs|
    ensures r.Some? ==> r.value <= i && msgs[r.value].role == "user"
                        && forall k :: r.value < k <= i ==> msgs[k].role != "user"
    ensures r.None? ==> forall k :: 0 <= k <= i ==> msgs[k].role != "user"
    decreases i + 1
  {
    if i < 0 then None else if msgs[i].role == "user" then Some(i) else UserAtOrBefore(msgs, i - 1)
  }

  /** The last message, and in a conversation of three or more the user message before it. */
  function CcPositions(msgs: seq<Message>): (ps: seq<nat>)
    requires msgs != []
    ensures |ps| <= 2 && forall k :: 0 <= k < |ps| ==> ps[k] < |msgs|
  {
    var n := |msgs|;
    [n - 1] + if n >= 3 && UserAtOrBefore(msgs, n - 2).Some? then [UserAtOrBefore(msgs, n - 2).value] else []
  }

  function MarkAt(msgs: seq<Message>, ps: seq<nat>): (r: seq<Message>)
    requires forall k :: 0 <= k < |ps| ==> ps[k] < |msgs|
    ensures |r| == |msgs|
  {
    seq(|msgs|, i requires 0 <= i < |msgs| => if i in ps then Mark(msgs[i]) else msgs[i])
  }

  lemma MarkAtNothing(msgs: seq<Message>)
    ensures MarkAt(msgs, []) == msgs
  {
  }

  /** Marking one more message of the copy, not yet marked, is marking at one more position. */
  lemma MarkAtOneMore(msgs: seq<Message>, ps: seq<nat>, p: nat)
    requires p < |msgs| && p !in ps && forall k :: 0 <= k < |ps| ==> ps[k] < |msgs|
    ensures MarkAt(msgs, ps)[p] == msgs[p]
    ensures MarkAt(msgs, ps + [p]) == MarkAt(msgs, ps)[p := Mark(msgs[p])]
  {
  }

  function Injected(msgs: seq<Message>): seq<Message> {
    if msgs == [] then [] else MarkAt(msgs, Positions(|msgs|))
  }

  function CcInjected(msgs: seq<Message>): seq<Message> {
    if msgs == [] then [] else MarkAt(msgs, CcPositions(msgs))
  }

  /** Marks one message of a copied list in place and says whether it could. */
  method MarkInPlace(msgs: array<Message>, pos: nat) returns (marked: bool)
    requires pos < msgs.Length
    modifies msgs
    ensures msgs[..] == old(msgs[..])[pos := Mark(old(msgs[pos]))]
    ensures marked <==> Markable(old(msgs[pos]))
  {
    marked := false;
    var m := msgs[pos];
    if m.content.Text? {
      msgs[pos] := m.(content := Blocks([TextBlock(m.content.text)]));
      marked := true;
    } else if m.content.Blocks? && m.content.blocks != [] {
      var last := |m.content.blocks| - 1;
      if m.content.blocks[last].Dict? {
        msgs[pos] := m.(content := Blocks(m.content.blocks[last := m.content.blocks[last].(cacheControl := true)]));
        marked := true;
      }
    }
  }

  lemma MarkKeepsRoles(msgs: seq<Message>, ps: seq<nat>)
    requires forall k :: 0 <= k < |ps| ==> ps[k] < |msgs|
    ensures forall i :: 0 <= i < |msgs| ==> MarkAt(msgs, ps)[i].role == msgs[i].role
  {
  }

  method InjectCacheMarkers(system: System, apiMessages: seq<Message>) returns (system': System, messages: seq<Message>)
    ensures system' == MarkSystem(system) && messages == Injected(apiMessages)
  {
    hide Mark, MarkAt, UserAtOrBefore;
    system' := system;
    if system.SystemText? && system.text != "" {
      system' := SystemBlocks([TextBlock(system.text)]);
    }
    if apiMessages == [] {
      return system', apiMessages;
    }
    var n := |apiMessages|;
    var msgs := new Message[n](i requires 0 <= i < n => apiMessages[i]);
    assert msgs[..] == apiMessages;
    MarkAtNothing(apiMessages);
    var positions := Positions(n);
    var placed := 1;
    var k := 0;
    while k < |positions|
      invariant k <= |positions| && 1 <= placed <= k + 1
      invariant fresh(msgs) && msgs.Length == n
      invariant msgs[..] == MarkAt(apiMessages, positions[..k])
    {
      if placed >= 4 {
        break;
      }
      var pos := positions[k];
      MarkAtOneMore(apiMessages, positions[..k], pos);
      assert msgs[pos] == msgs[..][pos];
      var marked := MarkInPlace(msgs, pos);
      if marked {
        placed := placed + 1;
      }
      assert positions[..k + 1] == positions[..k] + [pos];
      k := k + 1;
    }
    assert positions[..k] == positions;
    messages := msgs[..];
  }

  /** Searches a copied list backwards for a user message; markers do not change roles. */
  method FindUserBackwards(msgs: array<Message>, last: nat, ghost original: seq<Message>) returns (i: int)
    requires last < msgs.Length == |original|
    requires forall k :: 0 <= k <= last ==> msgs[k].role == original[k].role
    ensures -1 <= i <= last
    ensures UserAtOrBefore(original, last) == if i < 0 then None else Some(i)
  {
    i := last;
    while i >= 0 && msgs[i].role != "user"
      invariant -1 <= i <= last
      invariant UserAtOrBefore(original, i) == UserAtOrBefore(original, last)
    {
      i := i - 1;
    }
  }

  /** Marks the nearest user message before the last one, which is already marked. */
  method MarkUserBefore(msgs: array<Message>, ghost original: seq<Message>) returns (marked: bool)
    requires msgs.Length == |original| >= 3 && msgs[..] == MarkAt(original, [|original| - 1])
    modifies msgs
    ensures msgs[..] == MarkAt(original, CcPositions(original))
  {
    hide Mark, MarkAt, UserAtOrBefore;
    var n := msgs.Length;
    MarkKeepsRoles(original, [n - 1]);
    assert forall k :: 0 <= k < n ==> msgs[k].role == msgs[..][k].role == original[k].role;
    var i := FindUserBackwards(msgs, n - 2, original);
    marked := false;
    if i >= 0 {
      MarkAtOneMore(original, [n - 1], i);
      assert msgs[i] == msgs[..][i];
      marked := MarkInPlace(msgs, i);
    }
    assert [n - 1] + [] == [n - 1];
  }

  method InjectCcStyleMarkers(system: System, apiMessages: seq<Message>)
    returns (system': System, messages: seq<Message>)
    ensures system' == MarkSystem(system) && messages == CcInjected(apiMessages)
  {
    hide Mark, MarkAt;
    system' := system;
    if system.SystemText? && system.text != "" {
      system' := SystemBlocks([TextBlock(system.text)]);
    }
    if apiMessages == [] {
      return system', apiMessages;
    }
    var n := |apiMessages|;
    var msgs := new Message[n](i requires 0 <= i < n => apiMessages[i]);
    assert msgs[..] == apiMessages;
    MarkAtNothing(apiMessages);
    MarkAtOneMore(apiMessages, [], n - 1);
    var placed := 1;
    var marked := MarkInPlace(msgs, n - 1);
    if marked {
      placed := placed + 1;
    }
    assert [] + [n - 1] == [n - 1];
    if n >= 3 && placed < 4 {
      marked := MarkUserBefore(msgs, apiMessages);
      if marked {
        placed := placed + 1;
      }
    }
    messages := msgs[..];
    assert [n - 1] + [] == [n - 1];
  }

  // ---------------------------------------------------------------- how many breakpoints

  function BlockMarks(bs: seq<Block>): nat {
    if bs == [] then 0
    else BlockMarks(bs[..|bs| - 1]) + if bs[|bs| - 1].Dict? && bs[|bs| - 1].cacheControl then 1 else 0
  }

  function Marks(m: Message): nat {
    if m.content.Blocks? then BlockMarks(m.content.blocks) else 0
  }

  function TotalMarks(msgs: seq<Message>): nat {
    if msgs == [] then 0 else TotalMarks(msgs[..|msgs| - 1]) + Marks(msgs[|msgs| - 1])
  }

  function SystemMarks(system: System): nat {
    if system.SystemBlocks? then BlockMarks(system.blocks) else 0
  }

  lemma MarkAddsAtMostOne(m: Message)
    ensures Marks(m) <= Marks(Mark(m)) <= Marks(m) + 1
  {
    match m.content
    case Text(t) =>
      assert BlockMarks([TextBlock(t)]) == BlockMarks([TextBlock(t)][..0]) + 1;
    case Blocks(bs) =>
      if bs != [] && bs[|bs| - 1].Dict? {
        var bs' := bs[|bs| - 1 := bs[|bs| - 1].(cacheControl := true)];
        assert bs'[..|bs'| - 1] == bs[..|bs| - 1];
      }
    case Missing =>
  }

  /** Positions of ps that fall below k. */
  function Below(ps: seq<nat>, k: nat): nat {
    if ps == [] then 0 else Below(ps[..|ps| - 1], k) + if ps[|ps| - 1] < k then 1 else 0
  }

  lemma {:induction false} BelowGrows(ps: seq<nat>, k: nat)
    ensures Below(ps, k) <= Below(ps, k + 1) <= |ps|
    ensures k in ps ==> Below(ps, k) < Below(ps, k + 1)
  {
    if ps != [] {
      var front := ps[..|ps| - 1];
      BelowGrows(front, k);
      assert ps == front + [ps[|ps| - 1]];
    }
  }

  lemma {:induction false} MarkAtAdds(msgs: seq<Message>, ps: seq<nat>, k: nat)
    requires k <= |msgs| && forall j :: 0 <= j < |ps| ==> ps[j] < |msgs|
    ensures TotalMarks(msgs[..k]) <= TotalMarks(MarkAt(msgs, ps)[..k]) <= TotalMarks(msgs[..k]) + Below(ps, k)
    ensures Below(ps, k) <= |ps|
  {
    if k == 0 {
      BelowGrows(ps, 0);
    } else {
      MarkAtAdds(msgs, ps, k - 1);
      BelowGrows(ps, k - 1);
      MarkAddsAtMostOne(msgs[k - 1]);
      assert msgs[..k][..k - 1] == msgs[..k - 1];
      assert MarkAt(msgs, ps)[..k][..k - 1] == MarkAt(msgs, ps)[..k - 1];
    }
  }

  /** Never more than four new breakpoints, three of them on messages; so at most four in
      all on a request that came without any. */
  lemma BreakpointBudget(system: System, msgs: seq<Message>)
    ensures TotalMarks(Injected(msgs)) + SystemMarks(MarkSystem(system)) <= TotalMarks(msgs) + SystemMarks(system) + 4
    ensures TotalMarks(CcInjected(msgs)) + SystemMarks(MarkSystem(system)) <= TotalMarks(msgs) + SystemMarks(system) + 3
  {
    if system.SystemText? {
      assert BlockMarks([TextBlock(system.text)]) == BlockMarks([TextBlock(system.text)][..0]) + 1;
    }
    if msgs != [] {
      var n := |msgs|;
      MarkAtAdds(msgs, Positions(n), n);
      MarkAtAdds(msgs, CcPositions(msgs), n);
      assert msgs[..n] == msgs;
      assert Injected(msgs)[..n] == Injected(msgs) && CcInjected(msgs)[..n] == CcInjected(msgs);
    }
  }

  // ---------------------------------------------------------------- text and idempotence

  function StripBlocks(bs: seq<Block>): seq<Block> {
    seq(|bs|, i requires 0 <= i < |bs| => if bs[i].Dict? then bs[i].(cacheControl := false) else bs[i])
  }

  /** A message without markers, with a single plain text block unwrapped. */
  function Strip(m: Message): Message {
    match m.content
    case Blocks(bs) =>
      if |bs| == 1 && bs[0].Dict? && bs[0].kind == "text" && bs[0].extra == map[]
      then m.(content := Text(bs[0].payload))
      else m.(content := Blocks(StripBlocks(bs)))
    case _ => m
  }

  lemma MarkKeepsText(m: Message)
    ensures Strip(Mark(m)) == Strip(m)
    ensures Mark(Mark(m)) == Mark(m)
  {
    if m.content.Blocks? && Markable(m) {
      var bs := m.content.blocks;
      var bs' := bs[|bs| - 1 := bs[|bs| - 1].(cacheControl := true)];
      assert StripBlocks(bs') == StripBlocks(bs);
      assert bs'[|bs'| - 1 := bs'[|bs'| - 1].(cacheControl := true)] == bs';
    }
  }

  lemma {:induction false} SameRolesSameUser(a: seq<Message>, b: seq<Message>, i: int)
    requires |a| == |b| && -1 <= i < |a| && forall k :: 0 <= k < |a| ==> a[k].role == b[k].role
    ensures UserAtOrBefore(a, i) == UserAtOrBefore(b, i)
    decreases i + 1
  {
    if i >= 0 {
      SameRolesSameUser(a, b, i - 1);
    }
  }

  lemma MarkAtKeepsText(msgs: seq<Message>, ps: seq<nat>)
    requires forall k :: 0 <= k < |ps| ==> ps[k] < |msgs|
    ensures forall i :: 0 <= i < |msgs| ==> Strip(MarkAt(msgs, ps)[i]) == Strip(msgs[i])
    ensures MarkAt(MarkAt(msgs, ps), ps) == MarkAt(msgs, ps)
  {
    forall i | 0 <= i < |msgs|
      ensures Strip(MarkAt(msgs, ps)[i]) == Strip(msgs[i])
      ensures MarkAt(MarkAt(msgs, ps), ps)[i] == MarkAt(msgs, ps)[i]
    {
      MarkKeepsText(msgs[i]);
    }
  }

  /** The strategies choose positions by length and roles, which markers do not touch. */
  lemma PositionsStable(msgs: seq<Message>)
    requires msgs != []
    ensures CcPositions(CcInjected(msgs)) == CcPositions(msgs)
  {
    hide Mark, MarkAt;
    MarkKeepsRoles(msgs, CcPositions(msgs));
    if |msgs| >= 3 {
      SameRolesSameUser(msgs, CcInjected(msgs), |msgs| - 2);
    }
  }

  /** Markers change no text, and injecting twice is injecting once, with either strategy. */
  lemma InjectionIsTransparentAndIdempotent(system: System, msgs: seq<Message>)
    ensures |Injected(msgs)| == |CcInjected(msgs)| == |msgs|
    ensures forall i :: 0 <= i < |msgs| ==> Strip(Injected(msgs)[i]) == Strip(CcInjected(msgs)[i]) == Strip(msgs[i])
    ensures Injected(Injected(msgs)) == Injected(msgs)
    ensures CcInjected(CcInjected(msgs)) == CcInjected(msgs)
    ensures MarkSystem(MarkSystem(system)) == MarkSystem(system)
  {
    hide MarkAt, Strip;
    if msgs != [] {
      MarkAtKeepsText(msgs, Positions(|msgs|));
      MarkAtKeepsText(msgs, CcPositions(msgs));
      PositionsStable(msgs);
    }
  }

  // ---------------------------------------------------------------- where the breakpoints stand

  /** The message ends in a block that carries a breakpoint. */
  predicate EndsMarked(m: Message) {
    m.content.Blocks? && m.content.blocks != []
    && m.content.blocks[|m.content.blocks| - 1].Dict? && m.content.blocks[|m.content.blocks| - 1].cacheControl
  }

  /** What marking does to a message: a string becomes one marked text block, a list ending in an
      object has that object marked and nothing else, and any other message stays. */
  predicate MarkedForm(m: Message, marked: Message) {
    && marked.role == m.role && marked.extra == m.extra
    && (match m.content
        case Text(t) => marked.content == Blocks([Dict("text", t, true, map[])])
        case Missing => marked == m
        case Blocks(bs) =>
          if bs == [] || !bs[|bs| - 1].Dict? then marked == m
          else
            && marked.content.Blocks? && |marked.content.blocks| == |bs|
            && marked.content.blocks[..|bs| - 1] == bs[..|bs| - 1]
            && marked.content.blocks[|bs| - 1]
               == Dict(bs[|bs| - 1].kind, bs[|bs| - 1].payload, true, bs[|bs| - 1].extra))
  }

  lemma MarkMeaning(m: Message)
    ensures MarkedForm(m, Mark(m))
    ensures EndsMarked(Mark(m)) <==> Markable(m)
  {
  }

  /** Message i is one that the first strategy marks, out of n. */
  predicate AtThirdsOrEnd(i: nat, n: nat) {
    i == n - 1 || (n >= 3 && (i == n / 3 || i == 2 * n / 3))
  }

  lemma ThirdsAndEnd(n: nat, i: nat)
    requires i < n
    ensures i in Positions(n) <==> AtThirdsOrEnd(i, n)
  {
  }

  /** The last message, and of three or more also those a third and two thirds of the way, end in
      a breakpoint if they can carry one; no other message changes. */
  lemma ThirdsAreMarked(msgs: seq<Message>, i: nat)
    requires i < |msgs|
    ensures |Injected(msgs)| == |msgs|
    ensures !AtThirdsOrEnd(i, |msgs|) ==> Injected(msgs)[i] == msgs[i]
    ensures AtThirdsOrEnd(i, |msgs|) ==>
              MarkedForm(msgs[i], Injected(msgs)[i]) && (EndsMarked(Injected(msgs)[i]) <==> Markable(msgs[i]))
  {
    hide Positions, Mark, MarkedForm, EndsMarked, Markable, AtThirdsOrEnd;
    ThirdsAndEnd(|msgs|, i);
    MarkMeaning(msgs[i]);
  }

  /** Message i is the last, or, of three or more, the nearest user message before it. */
  ghost predicate AtEndOrUserBefore(msgs: seq<Message>, i: nat)
    requires i < |msgs|
  {
    || i == |msgs| - 1
    || (|msgs| >= 3 && msgs[i].role == "user" && forall k :: i < k < |msgs| - 1 ==> msgs[k].role != "user")
  }

  lemma EndAndUserBefore(msgs: seq<Message>, i: nat)
    requires i < |msgs|
    ensures i in CcPositions(msgs) <==> AtEndOrUserBefore(msgs, i)
  {
    var n := |msgs|;
    if n >= 3 {
      var u := UserAtOrBefore(msgs, n - 2);
      assert i < n - 1 && msgs[i].role == "user" && (forall k :: i < k < n - 1 ==> msgs[k].role != "user")
          ==> u == Some(i);
    }
  }

  /** The second strategy ends these two in a breakpoint, and changes no other message. */
  lemma CcStyleIsMarked(msgs: seq<Message>, i: nat)
    requires i < |msgs|
    ensures |CcInjected(msgs)| == |msgs|
    ensures !AtEndOrUserBefore(msgs, i) ==> CcInjected(msgs)[i] == msgs[i]
    ensures AtEndOrUserBefore(msgs, i) ==>
              MarkedForm(msgs[i], CcInjected(msgs)[i]) && (EndsMarked(CcInjected(msgs)[i]) <==> Markable(msgs[i]))
  {
    hide CcPositions, Mark, MarkedForm, EndsMarked, Markable, AtEndOrUserBefore;
    EndAndUserBefore(msgs, i);
    MarkMeaning(msgs[i]);
  }

  /** A message can carry a breakpoint unless it has no content, no block, or ends in something
      that is not an object. */
  lemma MarkableIff(m: Message)
    ensures Markable(m) <==>
              match m.content
              case Text(_) => true
              case Missing => false
              case Blocks(bs) => exists front: seq<Block>, last: Block :: bs == front + [last] && last.Dict?
  {
    if m.content.Blocks? && m.content.blocks != [] {
      var bs := m.content.blocks;
      assert bs == bs[..|bs| - 1] + [bs[|bs| - 1]];
    }
  }

  /** A system prompt that is a non-empty string becomes one marked block; any other stays. */
  lemma SystemIsMarked(system: System)
    ensures MarkSystem(system)
            == match system
               case SystemText(text) =>
                 if text == "" then system else SystemBlocks([Dict("text", text, true, map[])])
               case _ => system
  {
  }
}
