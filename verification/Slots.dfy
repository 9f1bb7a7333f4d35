/** Byte buffers cut into slots of equal size.

Scatter, alltoall and the reductions hand MPI a flat byte buffer: object `e` is copied to
offset `e * stride`, and whatever the buffer held behind it stays there.
*/
module Slots {
  import opened Marshal

  lemma SlotBounds(e: nat, count: nat, stride: nat)
    requires e < count
    ensures 0 <= e * stride <= (e + 1) * stride <= count * stride
    ensures (e + 1) * stride == e * stride + stride
  {
    assert (e + 1) * stride == e * stride + stride;
    MulMonotone(e + 1, count, stride);
  }

  lemma MulMonotone(a: nat, b: nat, c: nat)
    requires a <= b
    ensures a * c <= b * c
  {
    assert b * c == a * c + (b - a) * c;
  }

  function Slot(buf: Bytes, stride: nat, e: nat, count: nat): (s: Bytes)
    requires |buf| == count * stride && e < count
    ensures |s| == stride
  {
    SlotBounds(e, count, stride);
    buf[e * stride..(e + 1) * stride]
  }

  /** A buffer as the row of its slots: every statement about a buffer is one about its row. */
  function Row(buf: Bytes, stride: nat, count: nat): (row: seq<Bytes>)
    requires |buf| == count * stride
    ensures |row| == count && forall e :: 0 <= e < count ==> |row[e]| == stride
  {
    seq(count, e requires 0 <= e < count => Slot(buf, stride, e, count))
  }

  /** What `MEMCPY` leaves in a slot: the image in front, the old bytes behind it. */
  function Filled(slot: Bytes, image: Bytes): (s: Bytes)
    requires |image| <= |slot|
    ensures |s| == |slot|
  {
    image + slot[|image|..]
  }

  function Overwritten(buf: Bytes, at: nat, image: Bytes): (b: Bytes)
    requires at + |image| <= |buf|
    ensures |b| == |buf|
  {
    buf[..at] + image + buf[at + |image|..]
  }

  lemma WriteElsewhere(buf: Bytes, at: nat, image: Bytes, lo: nat, hi: nat)
    requires at + |image| <= |buf| && lo <= hi <= |buf|
    requires hi <= at || at + |image| <= lo
    ensures Overwritten(buf, at, image)[lo..hi] == buf[lo..hi]
  {
  }

  lemma WriteHere(buf: Bytes, at: nat, image: Bytes, hi: nat)
    requires at + |image| <= hi <= |buf|
    ensures Overwritten(buf, at, image)[at..hi] == Filled(buf[at..hi], image)
  {
  }

  /** Writing into slot `i` changes that slot as stated, and no other slot. */
  lemma WriteSlot(buf: Bytes, stride: nat, i: nat, count: nat, image: Bytes, e: nat)
    requires |buf| == count * stride && i < count && e < count && |image| <= stride
    ensures i * stride + |image| <= |buf|
    ensures Slot(Overwritten(buf, i * stride, image), stride, e, count)
         == if e == i then Filled(Slot(buf, stride, e, count), image) else Slot(buf, stride, e, count)
  {
    SlotBounds(i, count, stride);
    SlotBounds(e, count, stride);
    if e == i {
      WriteHere(buf, i * stride, image, (i + 1) * stride);
    } else {
      if e < i {
        MulMonotone(e + 1, i, stride);
      } else {
        MulMonotone(i + 1, e, stride);
      }
      WriteElsewhere(buf, i * stride, image, e * stride, (e + 1) * stride);
    }
  }

  lemma WriteRow(buf: Bytes, stride: nat, i: nat, count: nat, image: Bytes)
    requires |buf| == count * stride && i < count && |image| <= stride
    ensures i * stride + |image| <= |buf|
    ensures Row(Overwritten(buf, i * stride, image), stride, count)
         == Row(buf, stride, count)[i := Filled(Row(buf, stride, count)[i], image)]
  {
    WriteSlot(buf, stride, i, count, image, i);
    forall e | 0 <= e < count
      ensures Row(Overwritten(buf, i * stride, image), stride, count)[e]
           == Row(buf, stride, count)[i := Filled(Row(buf, stride, count)[i], image)][e]
    {
      WriteSlot(buf, stride, i, count, image, e);
    }
  }

  lemma OneByteMore(buf: Bytes, at: nat, image: Bytes, k: nat)
    requires at + |image| <= |buf| && k < |image|
    ensures Overwritten(buf, at, image[..k + 1]) == Overwritten(buf, at, image[..k])[at + k := image[k]]
  {
    assert image[..k + 1] == image[..k] + [image[k]];
  }

  /** `MEMCPY` of a string to an offset of a buffer. */
  method CopyInto(buf: array<Byte>, at: nat, image: Bytes)
    requires at + |image| <= buf.Length
    modifies buf
    ensures buf[..] == Overwritten(old(buf[..]), at, image)
  {
    for k := 0 to |image|
      invariant buf[..] == Overwritten(old(buf[..]), at, image[..k])
    {
      ghost var now := buf[..];
      buf[at + k] := image[k];
      OneByteMore(old(buf[..]), at, image, k);
      assert buf[..] == now[at + k := image[k]];
    }
    assert image[..|image|] == image;
  }

  /** The bytes copied for an object; the reductions copy the terminator too. */
  function Image(x: Obj, terminated: bool): Bytes {
    Dump(x) + if terminated then [0] else []
  }

  /** The largest slot any of the objects asks for: its encoding and a terminator. */
  method Longest(objs: seq<Obj>) returns (longest: nat)
    ensures forall e :: 0 <= e < |objs| ==> |Dump(objs[e])| + 1 <= longest
    ensures objs == [] ==> longest == 0
    ensures objs != [] ==> exists e :: 0 <= e < |objs| && longest == |Dump(objs[e])| + 1
  {
    longest := 0;
    for i := 0 to |objs|
      invariant forall e :: 0 <= e < i ==> |Dump(objs[e])| + 1 <= longest
      invariant i == 0 ==> longest == 0
      invariant i > 0 ==> exists e :: 0 <= e < i && longest == |Dump(objs[e])| + 1
    {
      if |Dump(objs[i])| + 1 > longest {
        longest := |Dump(objs[i])| + 1;
      }
    }
  }

  /** The first `k` slots have the objects in front; the other slots are as they were. */
  ghost predicate PackedTo(objs: seq<Obj>, terminated: bool, was: seq<Bytes>, now: seq<Bytes>, k: nat)
    requires |was| == |now| == |objs| && k <= |objs|
    requires forall e :: 0 <= e < |objs| ==> |Image(objs[e], terminated)| <= |was[e]|
  {
    && (forall e :: 0 <= e < k ==> now[e] == Filled(was[e], Image(objs[e], terminated)))
    && (forall e :: k <= e < |objs| ==> now[e] == was[e])
  }

  lemma PackedStep(objs: seq<Obj>, terminated: bool, was: seq<Bytes>, now: seq<Bytes>, next: seq<Bytes>, k: nat)
    requires |was| == |now| == |objs| && k < |objs|
    requires forall e :: 0 <= e < |objs| ==> |Image(objs[e], terminated)| <= |was[e]|
    requires PackedTo(objs, terminated, was, now, k)
    requires next == now[k := Filled(now[k], Image(objs[k], terminated))]
    ensures PackedTo(objs, terminated, was, next, k + 1)
  {
  }

  method WriteImage(buf: array<Byte>, stride: nat, count: nat, i: nat, image: Bytes)
    requires buf.Length == count * stride && i < count && |image| <= stride
    modifies buf
    ensures var was := Row(old(buf[..]), stride, count);
            Row(buf[..], stride, count) == was[i := Filled(was[i], image)]
  {
    WriteRow(buf[..], stride, i, count, image);
    CopyInto(buf, i * stride, image);
  }

  /** Every object goes to the front of its own slot; nothing else in the buffer changes. */
  method Pack(objs: seq<Obj>, stride: nat, terminated: bool, buf: array<Byte>)
    requires buf.Length == |objs| * stride
    requires forall e :: 0 <= e < |objs| ==> |Image(objs[e], terminated)| <= stride
    modifies buf
    ensures PackedTo(objs, terminated, Row(old(buf[..]), stride, |objs|), Row(buf[..], stride, |objs|), |objs|)
  {
    ghost var was := Row(buf[..], stride, |objs|);
    for i := 0 to |objs|
      invariant PackedTo(objs, terminated, was, Row(buf[..], stride, |objs|), i)
    {
      ghost var now := Row(buf[..], stride, |objs|);
      WriteImage(buf, stride, |objs|, i, Image(objs[i], terminated));
      PackedStep(objs, terminated, was, now, Row(buf[..], stride, |objs|), i);
    }
  }

  /** A packed slot loads as its object, whatever the padding. */
  lemma FilledLoads(slot: Bytes, x: Obj, terminated: bool)
    requires |Image(x, terminated)| <= |slot|
    ensures Load(Filled(slot, Image(x, terminated))) == Some(x)
  {
    var rest := slot[|Image(x, terminated)|..];
    LoadIgnoresPadding(x, (if terminated then [0] else []) + rest);
    assert Dump(x) + ((if terminated then [0] else []) + rest) == Image(x, terminated) + rest;
  }

  /** A row of slots that load as `objs`. */
  ghost predicate Holds(row: seq<Bytes>, objs: seq<Obj>) {
    |row| == |objs| && forall e :: 0 <= e < |objs| ==> Load(row[e]) == Some(objs[e])
  }

  /** A row of slots with the objects' bytes in front. */
  ghost predicate Carries(row: seq<Bytes>, objs: seq<Obj>, terminated: bool) {
    |row| == |objs| && forall e :: 0 <= e < |objs| ==> Image(objs[e], terminated) <= row[e]
  }

  lemma PackedCarries(objs: seq<Obj>, terminated: bool, was: seq<Bytes>, now: seq<Bytes>)
    requires |was| == |now| == |objs|
    requires forall e :: 0 <= e < |objs| ==> |Image(objs[e], terminated)| <= |was[e]|
    requires PackedTo(objs, terminated, was, now, |objs|)
    ensures Carries(now, objs, terminated)
  {
  }

  lemma PackedHolds(objs: seq<Obj>, terminated: bool, was: seq<Bytes>, now: seq<Bytes>)
    requires |was| == |now| == |objs|
    requires forall e :: 0 <= e < |objs| ==> |Image(objs[e], terminated)| <= |was[e]|
    requires PackedTo(objs, terminated, was, now, |objs|)
    ensures Holds(now, objs)
  {
    forall e | 0 <= e < |objs|
      ensures Load(now[e]) == Some(objs[e])
    {
      FilledLoads(was[e], objs[e], terminated);
    }
  }

  /** A fresh, uninitialised buffer with the objects packed into it. */
  method PackedBuffer(objs: seq<Obj>, stride: nat, terminated: bool) returns (buf: array<Byte>)
    requires forall e :: 0 <= e < |objs| ==> |Image(objs[e], terminated)| <= stride
    ensures fresh(buf) && buf.Length == |objs| * stride
    ensures Holds(Row(buf[..], stride, |objs|), objs) && Carries(Row(buf[..], stride, |objs|), objs, terminated)
  {
    buf := new Byte[|objs| * stride];
    ghost var was := Row(buf[..], stride, |objs|);
    Pack(objs, stride, terminated, buf);
    PackedHolds(objs, terminated, was, Row(buf[..], stride, |objs|));
    PackedCarries(objs, terminated, was, Row(buf[..], stride, |objs|));
  }

  ghost predicate BufferHolds(buf: Bytes, stride: nat, objs: seq<Obj>) {
    |buf| == |objs| * stride && Holds(Row(buf, stride, |objs|), objs)
  }

  ghost predicate BufferCarries(buf: Bytes, stride: nat, objs: seq<Obj>, terminated: bool) {
    |buf| == |objs| * stride && Carries(Row(buf, stride, |objs|), objs, terminated)
  }

  /** Every rank's packed send buffer, at one stride. */
  method PackedBuffers(arys: seq<seq<Obj>>, stride: nat, terminated: bool) returns (sends: seq<Bytes>)
    requires forall r, e :: 0 <= r < |arys| && 0 <= e < |arys[r]| ==> |Dump(arys[r][e])| + 1 <= stride
    ensures |sends| == |arys| && forall r :: 0 <= r < |arys| ==> BufferHolds(sends[r], stride, arys[r])
    ensures forall r :: 0 <= r < |arys| ==> BufferCarries(sends[r], stride, arys[r], terminated)
  {
    sends := [];
    for i := 0 to |arys|
      invariant |sends| == i && forall r :: 0 <= r < i ==> BufferHolds(sends[r], stride, arys[r])
      invariant forall r :: 0 <= r < i ==> BufferCarries(sends[r], stride, arys[r], terminated)
    {
      var buf := PackedBuffer(arys[i], stride, terminated);
      sends := sends + [buf[..]];
    }
  }

  function Part(buf: Bytes, stride: nat, count: nat, from: nat, len: nat): (b: Bytes)
    requires |buf| == count * stride && from + len <= count
    ensures |b| == len * stride
  {
    MulMonotone(from + len, count, stride);
    assert (from + len) * stride == from * stride + len * stride;
    buf[from * stride..(from + len) * stride]
  }

  lemma SliceOfSlice(buf: Bytes, lo: nat, hi: nat, a: nat, b: nat)
    requires lo <= hi <= |buf| && a <= b <= hi - lo
    ensures buf[lo..hi][a..b] == buf[lo + a..lo + b]
  {
    forall k | 0 <= k < b - a
      ensures buf[lo..hi][a..b][k] == buf[lo + a..lo + b][k]
    {
    }
  }

  lemma SlotOfPart(buf: Bytes, stride: nat, count: nat, from: nat, len: nat, e: nat)
    requires |buf| == count * stride && from + len <= count && e < len
    ensures Slot(Part(buf, stride, count, from, len), stride, e, len) == Slot(buf, stride, from + e, count)
  {
    SlotBounds(e, len, stride);
    SlotBounds(from + e, count, stride);
    MulMonotone(from + len, count, stride);
    assert (from + len) * stride == from * stride + len * stride;
    assert (from + e) * stride == from * stride + e * stride;
    SliceOfSlice(buf, from * stride, (from + len) * stride, e * stride, (e + 1) * stride);
  }

  /** A part of a buffer is the part of its row. */
  lemma RowOfPart(buf: Bytes, stride: nat, count: nat, from: nat, len: nat)
    requires |buf| == count * stride && from + len <= count
    ensures Row(Part(buf, stride, count, from, len), stride, len) == Row(buf, stride, count)[from..from + len]
  {
    var part := Row(Part(buf, stride, count, from, len), stride, len);
    forall e | 0 <= e < len
      ensures part[e] == Row(buf, stride, count)[from + e]
    {
      SlotOfPart(buf, stride, count, from, len, e);
    }
  }

  /** `Marshal.load` of every slot. */
  method Unpack(buf: Bytes, stride: nat, count: nat) returns (objs: seq<Option<Obj>>)
    requires |buf| == count * stride
    ensures |objs| == count
    ensures forall e :: 0 <= e < count ==> objs[e] == Load(Row(buf, stride, count)[e])
  {
    objs := [];
    for e := 0 to count
      invariant |objs| == e
      invariant forall k :: 0 <= k < e ==> objs[k] == Load(Row(buf, stride, count)[k])
    {
      SlotBounds(e, count, stride);
      objs := objs + [Load(buf[e * stride..(e + 1) * stride])];
    }
  }
}
