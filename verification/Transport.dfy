/** The message-passing layer under the extension.

Every ordered pair of ranks has one channel, a first-in first-out list of tagged messages.
A receive with a tag pattern takes the first message of the channel that matches it: the
non-overtaking rule of section 3.5 of MPI 1.1.  Everything the extension sends is either the
length of a marshalled string or its bytes.
*/
module Transport {
  import opened Marshal

  datatype Payload = Size(n: nat) | Data(bytes: Bytes)
  datatype Message = Message(tag: nat, payload: Payload)
  type Channel = seq<Message>

  datatype TagPattern = AnyTag | Tag(tag: nat)
  datatype SourcePattern = AnySource | From(src: nat)

  predicate MatchesTag(p: TagPattern, tag: nat) {
    p.AnyTag? || p.tag == tag
  }

  predicate MatchesSource(p: SourcePattern, src: nat) {
    p.AnySource? || p.src == src
  }

  /** Two tag patterns overlap when one message could match both. */
  predicate Overlap(p: TagPattern, q: TagPattern) {
    p.AnyTag? || q.AnyTag? || p.tag == q.tag
  }

  /** The position of the first message that matches `p`, or the length of the channel. */
  function FirstMatch(c: Channel, p: TagPattern): (i: nat)
    ensures i <= |c|
    ensures i < |c| ==> MatchesTag(p, c[i].tag)
    ensures forall k :: 0 <= k < i ==> !MatchesTag(p, c[k].tag)
  {
    if c == [] then 0
    else if MatchesTag(p, c[0].tag) then 0
    else 1 + FirstMatch(c[1..], p)
  }

  function Without<T>(s: seq<T>, i: nat): (r: seq<T>)
    requires i < |s|
    ensures |r| == |s| - 1
  {
    s[..i] + s[i + 1..]
  }

  lemma Assoc<T>(a: seq<T>, b: seq<T>, c: seq<T>)
    ensures (a + b) + c == a + (b + c)
  {
  }

  lemma WithoutMiddle<T>(a: seq<T>, m: seq<T>, b: seq<T>)
    requires m != []
    ensures Without(a + m + b, |a|) == a + m[1..] + b
  {
    assert (a + m + b)[..|a|] == a;
    assert (a + m + b)[|a| + 1..] == m[1..] + b;
    Assoc(a, m[1..], b);
  }

  lemma FirstMatchIs(c: Channel, p: TagPattern, i: nat)
    requires i < |c| && MatchesTag(p, c[i].tag)
    requires forall k :: 0 <= k < i ==> !MatchesTag(p, c[k].tag)
    ensures FirstMatch(c, p) == i
  {
    if FirstMatch(c, p) < i {
      assert false;
    }
  }

  // ---------- The part of a channel that carries one tag ----------

  function OnTag(c: Channel, tag: nat): Channel {
    if c == [] then []
    else (if c[0].tag == tag then [c[0]] else []) + OnTag(c[1..], tag)
  }

  lemma {:induction false} OnTagConcat(a: Channel, b: Channel, tag: nat)
    ensures OnTag(a + b, tag) == OnTag(a, tag) + OnTag(b, tag)
  {
    if a == [] {
      assert a + b == b;
    } else {
      OnTagConcat(a[1..], b, tag);
      assert (a + b)[1..] == a[1..] + b;
      Assoc(if a[0].tag == tag then [a[0]] else [], OnTag(a[1..], tag), OnTag(b, tag));
    }
  }

  lemma {:induction false} OnTagNone(a: Channel, tag: nat)
    requires forall k :: 0 <= k < |a| ==> a[k].tag != tag
    ensures OnTag(a, tag) == []
  {
    if a != [] {
      assert a[0].tag != tag;
      OnTagNone(a[1..], tag);
    }
  }

  lemma OnTagSend(c: Channel, m: Message, tag: nat)
    ensures OnTag(c + [m], tag) == if m.tag == tag then OnTag(c, tag) + [m] else OnTag(c, tag)
  {
    OnTagConcat(c, [m], tag);
    assert [m][1..] == [];
  }

  /** Taking a message out leaves every other tag's messages as they were. */
  lemma WithoutOnTag(c: Channel, i: nat, tag: nat)
    requires i < |c|
    ensures OnTag(c, tag)
         == OnTag(c[..i], tag) + (if c[i].tag == tag then [c[i]] else []) + OnTag(c[i + 1..], tag)
    ensures OnTag(Without(c, i), tag) == OnTag(c[..i], tag) + OnTag(c[i + 1..], tag)
  {
    assert c == c[..i] + c[i..];
    OnTagConcat(c[..i], c[i..], tag);
    OnTagConcat(c[..i], c[i + 1..], tag);
    assert c[i..][1..] == c[i + 1..];
  }

  /** A receive on one tag takes the oldest message of that tag. */
  lemma ReceiveOnTag(c: Channel, tag: nat)
    requires FirstMatch(c, Tag(tag)) < |c|
    ensures var i := FirstMatch(c, Tag(tag));
            OnTag(c, tag) == [c[i]] + OnTag(Without(c, i), tag)
  {
    var i := FirstMatch(c, Tag(tag));
    OnTagNone(c[..i], tag);
    WithoutOnTag(c, i, tag);
  }

  /** Traffic on different tags does not interact. */
  lemma ReceiveKeepsOthers(c: Channel, tag: nat, other: nat)
    requires FirstMatch(c, Tag(tag)) < |c| && other != tag
    ensures OnTag(Without(c, FirstMatch(c, Tag(tag))), other) == OnTag(c, other)
  {
    WithoutOnTag(c, FirstMatch(c, Tag(tag)), other);
  }

  lemma NothingOnTag(c: Channel, tag: nat)
    ensures FirstMatch(c, Tag(tag)) == |c| <==> OnTag(c, tag) == []
  {
    if FirstMatch(c, Tag(tag)) == |c| {
      OnTagNone(c, tag);
    } else {
      ReceiveOnTag(c, tag);
    }
  }
}
