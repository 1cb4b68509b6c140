/** Cutting a byte stream into messages, whatever the pieces it arrives in. Both
    the wire-protocol inspector and the HTTP proxy work this way. */
module Framing {
  import opened Prelude

  /** What the front of a buffer holds: part of a message, something malformed, or
      a whole message of `len` bytes. */
  datatype Front<+M> = Partial | Bad | Whole(msg: M, len: nat)

  /** All messages at the front of a buffer and the bytes they take; `bad` when
      something malformed follows them. */
  datatype Scan<+M> = Scan(msgs: seq<M>, used: nat, bad: bool)

  function ScanAll<M>(front: seq<Byte> -> Front<M>, d: seq<Byte>): (r: Scan<M>)
    ensures r.used <= |d|
    decreases |d|
  {
    match front(d)
    case Partial => Scan([], 0, false)
    case Bad => Scan([], 0, true)
    case Whole(m, n) =>
      if n == 0 || n > |d| then Scan([], 0, false)
      else
        var r := ScanAll(front, d[n..]);
        Scan([m] + r.msgs, n + r.used, r.bad)
  }

  /** More bytes never change what has been recognised at the front of `d`. */
  predicate StableAt<M(==)>(front: seq<Byte> -> Front<M>, d: seq<Byte>, e: seq<Byte>) {
    && (front(d).Whole? ==> 0 < front(d).len <= |d|)
    && (!front(d).Partial? ==> front(d + e) == front(d))
  }

  ghost predicate PrefixStable<M>(front: seq<Byte> -> Front<M>) {
    forall d, e :: StableAt(front, d, e)
  }

  /** The bytes left over after a scan. */
  function Rest<M>(front: seq<Byte> -> Front<M>, d: seq<Byte>): seq<Byte> {
    d[ScanAll(front, d).used..]
  }

  /** A scan is maximal: it stops at a partial message, or at a malformed one. */
  lemma {:induction false} ScanIsMaximal<M>(front: seq<Byte> -> Front<M>, d: seq<Byte>)
    requires PrefixStable(front)
    ensures if ScanAll(front, d).bad then front(Rest(front, d)).Bad? else front(Rest(front, d)).Partial?
    decreases |d|
  {
    assert StableAt(front, d, []);
    if front(d).Whole? {
      var n := front(d).len;
      ScanIsMaximal(front, d[n..]);
      assert Rest(front, d) == Rest(front, d[n..]);
    } else {
      assert Rest(front, d) == d;
    }
  }

  /** Scanning `d` and later the rest of it with `e` behind finds the same
      messages as scanning `d + e` at once. */
  lemma {:induction false} ScanSplit<M>(front: seq<Byte> -> Front<M>, d: seq<Byte>, e: seq<Byte>)
    requires PrefixStable(front)
    ensures var a, b := ScanAll(front, d), ScanAll(front, Rest(front, d) + e);
            ScanAll(front, d + e) == if a.bad then a else Scan(a.msgs + b.msgs, a.used + b.used, b.bad)
    decreases |d|
  {
    assert StableAt(front, d, e);
    match front(d)
    case Partial =>
      assert Rest(front, d) == d;
      var b := ScanAll(front, d + e);
      assert [] + b.msgs == b.msgs;
    case Bad =>
    case Whole(m, n) =>
      ScanSplit(front, d[n..], e);
      assert (d + e)[n..] == d[n..] + e;
      assert Rest(front, d) == Rest(front, d[n..]);
      var a, b := ScanAll(front, d[n..]), ScanAll(front, Rest(front, d) + e);
      assert [m] + (a.msgs + b.msgs) == ([m] + a.msgs) + b.msgs;
  }

  /** And leaves the same bytes over, which hold no further message. */
  lemma RestSplit<M>(front: seq<Byte> -> Front<M>, d: seq<Byte>, e: seq<Byte>)
    requires PrefixStable(front) && !ScanAll(front, d).bad
    ensures Rest(front, d + e) == Rest(front, Rest(front, d) + e)
    ensures !ScanAll(front, d + e).bad ==> front(Rest(front, d + e)).Partial?
  {
    ScanSplit(front, d, e);
    ScanIsMaximal(front, d + e);
    var a, b := ScanAll(front, d), ScanAll(front, Rest(front, d) + e);
    assert (d[a.used..] + e)[b.used..] == (d + e)[a.used + b.used..];
  }

  /** The whole of a stream that arrived in pieces. */
  function Joined(chunks: seq<seq<Byte>>): seq<Byte> {
    if chunks == [] then [] else Joined(chunks[..|chunks| - 1]) + chunks[|chunks| - 1]
  }
}
