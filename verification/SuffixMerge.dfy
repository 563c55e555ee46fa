/** Delta replay inside the last message: extracting what was appended to it, and
    merging the compressed suffix back. */
module SuffixMerge {
  import opened Messages

  /** The forwarded messages before the last, the forwarded last message, and the
      appended part as a message of its own (none when nothing was appended). */
  datatype Extraction = Extraction(prefix: seq<Message>, last: Message, delta: seq<Message>)

  function ExtractCacheStableLastMessageSuffix(
    current: seq<Message>, previousOriginal: Option<seq<Message>>, previousForwarded: Option<seq<Message>>)
    : Option<Extraction>
  {
    if previousOriginal.None? || previousOriginal.value == [] || previousForwarded.None? then None
    else
      var original, forwarded := previousOriginal.value, previousForwarded.value;
      if |current| != |original| || |forwarded| != |original| then None
      else
        var n := |current| - 1;
        if n > 0 && current[..n] != original[..n] then None
        else if current[n].role != original[n].role || current[n].role != forwarded[n].role then None
        else
          match (current[n].content, original[n].content, forwarded[n].content)
          case (Text(c), Text(o), Text(f)) =>
            if o <= c then
              var suffix := c[|o|..];
              Some(Extraction(forwarded[..n], forwarded[n],
                              if suffix == "" then [] else [current[n].(content := Text(suffix))]))
            else None
          case (Blocks(c), Blocks(o), Blocks(f)) =>
            if o <= c then
              var suffix := c[|o|..];
              Some(Extraction(forwarded[..n], forwarded[n],
                              if suffix == [] then [] else [current[n].(content := Blocks(suffix))]))
            else None
          case _ => None
  }

  function MergeAppendedMessageDelta(previous: Message, delta: Option<Message>): Option<Message> {
    match delta
    case None => Some(previous)
    case Some(d) =>
      if previous.role != d.role then None
      else
        match (previous.content, d.content)
        case (Text(p), Text(t)) => Some(previous.(content := Text(p + t)))
        case (Blocks(p), Blocks(t)) => Some(previous.(content := Blocks(p + t)))
        case _ => None
  }

  predicate SameKind(a: Content, b: Content) {
    (a.Text? && b.Text?) || (a.Blocks? && b.Blocks?)
  }

  /** b continues a: same kind, and a comes first. */
  predicate ContentStartsWith(b: Content, a: Content) {
    || (a.Text? && b.Text? && a.text <= b.text)
    || (a.Blocks? && b.Blocks? && a.blocks <= b.blocks)
  }

  /** The content that begins with a and goes on with b. */
  function Joined(a: Content, b: Content): Content
    requires SameKind(a, b)
  {
    if a.Text? then Text(a.text + b.text) else Blocks(a.blocks + b.blocks)
  }

  /** The delta is the part of `current` behind `original`, under current's role and keys. */
  predicate IsAppended(delta: seq<Message>, original: Message, current: Message) {
    if delta == [] then current.content == original.content
    else
      && delta == [current.(content := delta[0].content)]
      && SameKind(original.content, delta[0].content)
      && Joined(original.content, delta[0].content) == current.content != original.content
  }

  function FirstOf(delta: seq<Message>): Option<Message> {
    if delta == [] then None else Some(delta[0])
  }

  /** What an arbitrary compression of the delta may be, as long as role and kind survive. */
  predicate CompressionOf(compressed: Option<Message>, delta: seq<Message>) {
    && (compressed.Some? <==> delta != [])
    && (compressed.Some? ==> compressed.value.role == delta[0].role
                             && SameKind(compressed.value.content, delta[0].content))
  }

  /** Extraction is possible exactly when only the last message grew, in a kind it shares
      with its original and forwarded forms.  It keeps the forwarded list whole, and the delta
      is what was appended: put behind the original content it gives the current one. */
  lemma ExtractionMeaning(current: seq<Message>, original: seq<Message>, forwarded: seq<Message>)
    ensures var e := ExtractCacheStableLastMessageSuffix(current, Some(original), Some(forwarded));
            && (e.Some? <==>
                && |current| == |original| == |forwarded| && current != []
                && current[..|current| - 1] == original[..|current| - 1]
                && current[|current| - 1].role == original[|current| - 1].role == forwarded[|current| - 1].role
                && ContentStartsWith(current[|current| - 1].content, original[|current| - 1].content)
                && SameKind(forwarded[|current| - 1].content, original[|current| - 1].content))
            && (e.Some? ==>
                && e.value.prefix + [e.value.last] == forwarded
                && IsAppended(e.value.delta, original[|current| - 1], current[|current| - 1]))
  {
    if |current| == 1 && |original| == 1 {
      assert current[..0] == original[..0];
    }
    var e := ExtractCacheStableLastMessageSuffix(current, Some(original), Some(forwarded));
    if e.Some? {
      AppendedSuffix(e.value.delta, original[|current| - 1], current[|current| - 1]);
    }
  }

  lemma AppendedSuffix(delta: seq<Message>, original: Message, current: Message)
    requires ContentStartsWith(current.content, original.content)
    requires current.content.Text? ==>
               var suffix := current.content.text[|original.content.text|..];
               delta == if suffix == "" then [] else [current.(content := Text(suffix))]
    requires current.content.Blocks? ==>
               var suffix := current.content.blocks[|original.content.blocks|..];
               delta == if suffix == [] then [] else [current.(content := Blocks(suffix))]
    ensures IsAppended(delta, original, current)
  {
    match (original.content, current.content)
    case (Text(o), Text(c)) => assert o + c[|o|..] == c;
    case (Blocks(o), Blocks(c)) => assert o + c[|o|..] == c;
    case _ =>
  }

  /** After a successful extraction no compression that keeps role and kind can make the
      merge fail, and the merged message begins with what was forwarded before: the
      provider sees its cached bytes again. */
  lemma MergeNeverFails(
    current: seq<Message>, original: seq<Message>, forwarded: seq<Message>, compressed: Option<Message>)
    requires ExtractCacheStableLastMessageSuffix(current, Some(original), Some(forwarded)).Some?
    requires var e := ExtractCacheStableLastMessageSuffix(current, Some(original), Some(forwarded)).value;
             CompressionOf(compressed, e.delta)
    ensures var e := ExtractCacheStableLastMessageSuffix(current, Some(original), Some(forwarded)).value;
            var merged := MergeAppendedMessageDelta(e.last, compressed);
            && merged.Some?
            && merged.value.role == current[|current| - 1].role
            && ContentStartsWith(merged.value.content, e.last.content)
            && (compressed.Some? ==>
                && SameKind(e.last.content, compressed.value.content)
                && merged.value.content == Joined(e.last.content, compressed.value.content))
            && (compressed.None? ==> merged.value == e.last)
  {
    ExtractionMeaning(current, original, forwarded);
  }

  /** Merging fails iff there is a delta of another role or another kind of content. */
  lemma MergeFailsIff(previous: Message, delta: Option<Message>)
    ensures MergeAppendedMessageDelta(previous, delta).None?
            <==> delta.Some?
                 && (previous.role != delta.value.role || !SameKind(previous.content, delta.value.content))
    ensures delta.Some? && MergeAppendedMessageDelta(previous, delta).Some? ==>
              MergeAppendedMessageDelta(previous, delta).value
              == Message(previous.role, Joined(previous.content, delta.value.content), previous.extra)
    ensures delta.None? ==> MergeAppendedMessageDelta(previous, delta) == Some(previous)
  {
  }

  predicate SameRoleAndContent(a: Message, b: Message) {
    a.role == b.role && a.content == b.content
  }

  /** With an uncompressed history and a suffix that is left alone, extract and merge
      reproduce the current conversation, role by role and content by content. */
  lemma ExtractThenMergeIsIdentity(current: seq<Message>, original: seq<Message>)
    requires ExtractCacheStableLastMessageSuffix(current, Some(original), Some(original)).Some?
    ensures var e := ExtractCacheStableLastMessageSuffix(current, Some(original), Some(original)).value;
            var merged := MergeAppendedMessageDelta(e.last, FirstOf(e.delta));
            && merged.Some?
            && |e.prefix + [merged.value]| == |current|
            && forall i :: 0 <= i < |current| ==> SameRoleAndContent((e.prefix + [merged.value])[i], current[i])
  {
    ExtractionMeaning(current, original, original);
    var e := ExtractCacheStableLastMessageSuffix(current, Some(original), Some(original)).value;
    var n := |current| - 1;
    assert e.prefix == current[..n];
    match (current[n].content, original[n].content)
    case (Text(c), Text(o)) => assert o + c[|o|..] == c;
    case (Blocks(c), Blocks(o)) => assert o + c[|o|..] == c;
    case _ =>
  }

  /** Other keys of the message are those of the forwarded one: full equality can be lost. */
  lemma MergeKeepsForwardedKeys(m: Message, extra: map<string, string>)
    requires m.content.Text? && extra != m.extra
    ensures var current := [m.(extra := extra)];
            var e := ExtractCacheStableLastMessageSuffix(current, Some([m]), Some([m]));
            e.Some? && MergeAppendedMessageDelta(e.value.last, FirstOf(e.value.delta)) == Some(m) && m != current[0]
  {
    assert m.content.text <= m.content.text;
  }
}
