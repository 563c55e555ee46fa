/** Token counting and the tokens two requests share. */
module Tokens {
  import opened Messages

  /** `message` counts one message.  `framing` is whatever a tokenizer adds for a
      whole list on top of its messages; an additive tokenizer adds nothing. */
  datatype Tokenizer = Tokenizer(message: Message -> nat, framing: seq<Message> -> nat) {

    /** Tokens of the first k messages. */
    function SumFirst(s: seq<Message>, k: nat): nat
      requires k <= |s|
    {
      if k == 0 then 0 else SumFirst(s, k - 1) + message(s[k - 1])
    }

    function Sum(s: seq<Message>): nat {
      SumFirst(s, |s|)
    }

    function CountMessages(s: seq<Message>): nat {
      Sum(s) + framing(s)
    }

    ghost predicate Additive() {
      forall s :: framing(s) == 0
    }
  }

  /** Only the first k messages matter. */
  lemma {:induction false} SumFirstAgree(t: Tokenizer, a: seq<Message>, b: seq<Message>, k: nat)
    requires k <= |a| && k <= |b| && forall j :: 0 <= j < k ==> a[j] == b[j]
    ensures t.SumFirst(a, k) == t.SumFirst(b, k)
  {
    if k > 0 {
      SumFirstAgree(t, a, b, k - 1);
    }
  }

  lemma {:induction false} SumFirstMonotone(t: Tokenizer, s: seq<Message>, j: nat, k: nat)
    requires j <= k <= |s|
    ensures t.SumFirst(s, j) <= t.SumFirst(s, k)
    decreases k
  {
    if j < k {
      SumFirstMonotone(t, s, j, k - 1);
    }
  }

  lemma {:induction false} SumAppend(t: Tokenizer, a: seq<Message>, b: seq<Message>)
    ensures t.Sum(a + b) == t.Sum(a) + t.Sum(b)
  {
    if b == [] {
      assert a + b == a;
    } else {
      var n := |b| - 1;
      SumAppend(t, a, b[..n]);
      SumFirstAgree(t, a + b, a + b[..n], |a| + n);
      SumFirstAgree(t, b, b[..n], n);
    }
  }

  lemma SumOne(t: Tokenizer, m: Message)
    ensures t.Sum([m]) == t.message(m)
  {
    assert t.SumFirst([m], 1) == t.SumFirst([m], 0) + t.message([m][0]);
  }

  /** Length of the longest common prefix, comparing from position i on. */
  function SharedFrom(a: seq<Message>, b: seq<Message>, i: nat): (k: nat)
    requires i <= |a| && i <= |b|
    ensures i <= k <= |a| && k <= |b|
    ensures forall j :: i <= j < k ==> a[j] == b[j]
    ensures k < |a| && k < |b| ==> a[k] != b[k]
    decreases |a| - i
  {
    if i < |a| && i < |b| && a[i] == b[i] then SharedFrom(a, b, i + 1) else i
  }

  function SharedLength(a: seq<Message>, b: seq<Message>): nat {
    SharedFrom(a, b, 0)
  }

  /** The first difference is where the shared prefix ends, whichever way it was found. */
  lemma SharedLengthUnique(a: seq<Message>, b: seq<Message>, k: nat)
    requires k <= |a| && k <= |b| && forall j :: 0 <= j < k ==> a[j] == b[j]
    requires k < |a| && k < |b| ==> a[k] != b[k]
    ensures SharedLength(a, b) == k
  {
  }

  lemma SharedLengthReaches(a: seq<Message>, b: seq<Message>, k: nat)
    requires k <= |a| && k <= |b|
    ensures k <= SharedLength(a, b) <==> a[..k] == b[..k]
  {
    if a[..k] == b[..k] {
      assert forall j :: 0 <= j < k ==> a[..k][j] == b[..k][j];
    }
  }

  lemma SharedLengthOfPrefix(a: seq<Message>, b: seq<Message>)
    ensures a <= b <==> SharedLength(a, b) == |a|
  {
    if |a| <= |b| {
      SharedLengthReaches(a, b, |a|);
      assert a[..|a|] == a;
    }
  }

  /** Tokens of the messages two requests start with in common. */
  function SharedTokens(t: Tokenizer, prev: seq<Message>, curr: seq<Message>): nat {
    t.SumFirst(curr, SharedLength(prev, curr))
  }

  /** Shared tokens can never exceed either of the two requests. */
  lemma SharedTokensBound(t: Tokenizer, prev: seq<Message>, curr: seq<Message>)
    ensures SharedTokens(t, prev, curr) <= t.Sum(prev)
    ensures SharedTokens(t, prev, curr) <= t.Sum(curr)
  {
    var k := SharedLength(prev, curr);
    SumFirstMonotone(t, curr, k, |curr|);
    SumFirstMonotone(t, prev, k, |prev|);
    SumFirstAgree(t, prev, curr, k);
  }

  /** A request that is kept whole shares all of its tokens. */
  lemma SharedTokensOfPrefix(t: Tokenizer, prev: seq<Message>, curr: seq<Message>)
    requires prev <= curr
    ensures SharedTokens(t, prev, curr) == t.Sum(prev)
  {
    SharedLengthOfPrefix(prev, curr);
    SumFirstAgree(t, prev, curr, |prev|);
  }

  method CommonPrefixTokens(prev: seq<Message>, curr: seq<Message>, t: Tokenizer) returns (common: nat)
    ensures common == SharedTokens(t, prev, curr)
  {
    common := 0;
    var i := 0;
    while i < |prev| && i < |curr| && prev[i] == curr[i]
      invariant i <= |prev| && i <= |curr|
      invariant forall j :: 0 <= j < i ==> prev[j] == curr[j]
      invariant common == t.SumFirst(curr, i)
    {
      common := common + t.message(curr[i]);
      i := i + 1;
    }
    SharedLengthUnique(prev, curr, i);
  }
}
