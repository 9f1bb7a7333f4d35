/** Objects and their marshalled form.

The extension never looks inside a marshalled string; all it relies on is that
`Marshal.load` stops where the encoding ends, so that padding behind it is harmless.
A small self-delimiting codec with that property stands in for Ruby's own format.
*/
module Marshal {

  datatype Option<+T> = None | Some(value: T)

  /** Arrays of loaded objects: `None` stands for a slot that is empty or does not load. */
  function Somes<T>(xs: seq<T>): (r: seq<Option<T>>)
    ensures |r| == |xs| && forall k :: 0 <= k < |xs| ==> r[k] == Some(xs[k])
  {
    seq(|xs|, k requires 0 <= k < |xs| => Some(xs[k]))
  }

  function Values<T>(xs: seq<Option<T>>): (r: seq<T>)
    requires forall k :: 0 <= k < |xs| ==> xs[k].Some?
    ensures Somes(r) == xs && forall k :: 0 <= k < |xs| ==> xs[k] == Some(r[k])
  {
    seq(|xs|, k requires 0 <= k < |xs| => xs[k].value)
  }

  type Byte = x: int | 0 <= x < 256
  type Bytes = seq<Byte>

  datatype Obj =
    | Nil
    | True
    | False
    | Fix(n: int)
    | Str(s: Bytes)
    | Arr(elems: seq<Obj>)

  // ---------- Numbers: seven bits a byte, the high bit says that more follow ----------

  function DumpNat(n: nat): Bytes {
    if n < 128 then [n] else [128 + n % 128] + DumpNat(n / 128)
  }

  function LoadNat(b: Bytes): (r: Option<(nat, Bytes)>)
    ensures r.Some? ==> |r.value.1| < |b|
  {
    if b == [] then None
    else if b[0] < 128 then Some((b[0], b[1..]))
    else
      match LoadNat(b[1..])
      case None => None
      case Some((high, rest)) => Some((b[0] - 128 + 128 * high, rest))
  }

  lemma {:induction false} NatRoundTrip(n: nat, junk: Bytes)
    ensures LoadNat(DumpNat(n) + junk) == Some((n, junk))
  {
    if n < 128 {
      assert ([n] + junk)[1..] == junk;
    } else {
      NatRoundTrip(n / 128, junk);
      var b := DumpNat(n) + junk;
      assert b[1..] == DumpNat(n / 128) + junk;
    }
  }

  // ---------- Objects ----------

  function Dump(x: Obj): (b: Bytes)
    ensures |b| > 0
  {
    match x
    case Nil => [48]
    case True => [84]
    case False => [70]
    case Fix(n) => if n >= 0 then [105] + DumpNat(n) else [106] + DumpNat(-n)
    case Str(s) => [34] + DumpNat(|s|) + s
    case Arr(elems) => [91] + DumpNat(|elems|) + DumpAll(elems)
  }

  function DumpAll(xs: seq<Obj>): Bytes {
    if xs == [] then [] else Dump(xs[0]) + DumpAll(xs[1..])
  }

  /** Reads one object off the front of `b` and returns it with the bytes behind it. */
  function LoadOne(b: Bytes): (r: Option<(Obj, Bytes)>)
    ensures r.Some? ==> |r.value.1| < |b|
    decreases |b|, 0, 0
  {
    if b == [] then None
    else if b[0] == 48 then Some((Nil, b[1..]))
    else if b[0] == 84 then Some((True, b[1..]))
    else if b[0] == 70 then Some((False, b[1..]))
    else
      match LoadNat(b[1..])
      case None => None
      case Some((m, rest)) =>
        var n: int := m;
        if b[0] == 105 then Some((Fix(n), rest))
        else if b[0] == 106 then Some((Fix(-n), rest))
        else if b[0] == 34 && n <= |rest| then Some((Str(rest[..n]), rest[n..]))
        else if b[0] == 91 then
          match LoadMany(rest, n)
          case None => None
          case Some((xs, rest')) => Some((Arr(xs), rest'))
        else None
  }

  function LoadMany(b: Bytes, k: nat): (r: Option<(seq<Obj>, Bytes)>)
    ensures r.Some? ==> |r.value.1| <= |b|
    decreases |b|, 1, k
  {
    if k == 0 then Some(([], b))
    else
      match LoadOne(b)
      case None => None
      case Some((x, rest)) =>
        match LoadMany(rest, k - 1)
        case None => None
        case Some((xs, rest')) => Some(([x] + xs, rest'))
  }

  /** `Marshal.load`: the object at the front of the string, whatever follows it. */
  function Load(b: Bytes): Option<Obj> {
    match LoadOne(b)
    case None => None
    case Some((x, _)) => Some(x)
  }

  lemma TailAfter(t: Byte, mid: Bytes, tail: Bytes, junk: Bytes)
    ensures (([t] + mid + tail) + junk)[1..] == mid + (tail + junk)
    ensures ([t] + mid + tail + junk)[0] == t
  {
  }

  lemma FixRoundTrip(n: int, junk: Bytes)
    ensures LoadOne(Dump(Fix(n)) + junk) == Some((Fix(n), junk))
  {
    var m: nat := if n >= 0 then n else -n;
    NatRoundTrip(m, junk);
    assert (Dump(Fix(n)) + junk)[1..] == DumpNat(m) + junk;
  }

  lemma StrRoundTrip(s: Bytes, junk: Bytes)
    ensures LoadOne(Dump(Str(s)) + junk) == Some((Str(s), junk))
  {
    NatRoundTrip(|s|, s + junk);
    TailAfter(34, DumpNat(|s|), s, junk);
    assert (s + junk)[..|s|] == s && (s + junk)[|s|..] == junk;
  }

  lemma ArrRoundTrip(xs: seq<Obj>, junk: Bytes)
    requires LoadMany(DumpAll(xs) + junk, |xs|) == Some((xs, junk))
    ensures LoadOne(Dump(Arr(xs)) + junk) == Some((Arr(xs), junk))
  {
    NatRoundTrip(|xs|, DumpAll(xs) + junk);
    TailAfter(91, DumpNat(|xs|), DumpAll(xs), junk);
  }

  lemma {:induction false} OneRoundTrip(x: Obj, junk: Bytes)
    ensures LoadOne(Dump(x) + junk) == Some((x, junk))
    decreases x, 0
  {
    match x
    case Fix(n) => FixRoundTrip(n, junk);
    case Str(s) => StrRoundTrip(s, junk);
    case Arr(elems) =>
      ManyRoundTrip(elems, junk);
      ArrRoundTrip(elems, junk);
    case _ => assert (Dump(x) + junk)[1..] == junk;
  }

  lemma {:induction false} ManyRoundTrip(xs: seq<Obj>, junk: Bytes)
    ensures LoadMany(DumpAll(xs) + junk, |xs|) == Some((xs, junk))
    decreases xs, 1
  {
    if xs == [] {
      assert DumpAll(xs) + junk == junk;
    } else {
      assert DumpAll(xs) + junk == Dump(xs[0]) + (DumpAll(xs[1..]) + junk);
      OneRoundTrip(xs[0], DumpAll(xs[1..]) + junk);
      ManyRoundTrip(xs[1..], junk);
      assert [xs[0]] + xs[1..] == xs;
    }
  }

  /** The law every padded slot and every terminated message relies on. */
  lemma LoadIgnoresPadding(x: Obj, junk: Bytes)
    ensures Load(Dump(x) + junk) == Some(x)
  {
    OneRoundTrip(x, junk);
  }

  lemma LoadExact(x: Obj)
    ensures Load(Dump(x)) == Some(x)
  {
    LoadIgnoresPadding(x, []);
    assert Dump(x) + [] == Dump(x);
  }
}
