/** Reassembly of a wire protocol from arbitrary chunks (hoopinspect/inspect.go). */
module Inspection {
  import opened Prelude
  import opened Framing

  const DEFAULT_MAX_BUFFER := 8388608

  type Statement = seq<Byte>

  /** What a codec's Decode returns, for one direction of one connection. */
  datatype Decoded = Decoded(stmts: seq<Statement>, consumed: nat, malformed: bool)

  datatype Outcome = Clean(stmts: seq<Statement>) | Malformed(stmts: seq<Statement>) | Overflow(stmts: seq<Statement>)

  /** The undecoded tail kept for the next call: what follows the consumed bytes. */
  function Retained(input: seq<Byte>, consumed: nat): (tail: seq<Byte>)
    ensures if consumed <= |input| then input[..consumed] + tail == input else tail == []
  {
    if consumed >= |input| then [] else input[consumed..]
  }

  /** One call of Inspect: the new buffer and what the caller gets. */
  function Inspected(decode: seq<Byte> -> Decoded, max: int, buf: seq<Byte>, data: seq<Byte>): (seq<Byte>, Outcome) {
    if data == [] && buf == [] then (buf, Clean([]))
    else
      var input := buf + data;
      var d := decode(input);
      if d.malformed then ([], Malformed(d.stmts))
      else if |input| > max && d.consumed == 0 then ([], Overflow(d.stmts))
      else (Retained(input, d.consumed), Clean(d.stmts))
  }

  class Inspector {
    const decode: seq<Byte> -> Decoded
    var buf: seq<Byte>
    var maxBuffer: int

    constructor (decode: seq<Byte> -> Decoded)
      ensures this.decode == decode && buf == [] && maxBuffer == 8 * 1024 * 1024
    {
      this.decode := decode;
      buf, maxBuffer := [], DEFAULT_MAX_BUFFER;
    }

    method SetMaxBuffer(n: int)
      modifies this
      ensures buf == old(buf) && maxBuffer == if n <= 0 then 8 * 1024 * 1024 else n
    {
      maxBuffer := if n <= 0 then DEFAULT_MAX_BUFFER else n;
    }

    method Inspect(data: seq<Byte>) returns (out: Outcome)
      modifies this
      ensures maxBuffer == old(maxBuffer)
      ensures (buf, out) == Inspected(decode, maxBuffer, old(buf), data)
    {
      if |data| == 0 && |buf| == 0 {
        return Clean([]);
      }
      var input := data;
      if |buf| > 0 {
        input := buf + data;
      }
      assert input == old(buf) + data;
      var d := decode(input);
      if |input| > maxBuffer {
        if d.malformed {
          buf := [];
          return Malformed(d.stmts);
        }
        if d.consumed == 0 {
          buf := [];
          return Overflow(d.stmts);
        }
        Retain(input, d.consumed);
        return Clean(d.stmts);
      }
      if d.malformed {
        buf := [];
        return Malformed(d.stmts);
      }
      Retain(input, d.consumed);
      return Clean(d.stmts);
    }

    method Retain(input: seq<Byte>, consumed: nat)
      modifies this
      ensures maxBuffer == old(maxBuffer) && buf == Retained(input, consumed)
      ensures if consumed <= |input| then input[..consumed] + buf == input else buf == []
    {
      if consumed >= |input| {
        buf := [];
        return;
      }
      buf := input[consumed..];
    }

    method Buffered() returns (n: nat)
      ensures n == |buf|
    {
      n := |buf|;
    }

    method Reset()
      modifies this
      ensures buf == [] && maxBuffer == old(maxBuffer)
    {
      buf := [];
    }

    /** Feeding a connection's chunks one after the other, until an error. */
    method Feed(chunks: seq<seq<Byte>>) returns (end: Run)
      requires buf == []
      modifies this
      ensures end == Fed(decode, old(maxBuffer), chunks) && maxBuffer == old(maxBuffer)
      ensures end.ok ==> buf == end.buf
    {
      end := Run([], [], true, false);
      for i := 0 to |chunks|
        invariant maxBuffer == old(maxBuffer)
        invariant end == Fed(decode, maxBuffer, chunks[..i])
        invariant end.ok ==> buf == end.buf
      {
        assert chunks[..i + 1][..i] == chunks[..i];
        if end.ok {
          var out := Inspect(chunks[i]);
          end := Run(buf, end.stmts + out.stmts, out.Clean?, out.Overflow?);
        }
      }
      assert chunks[..|chunks|] == chunks;
    }
  }

  /** A connection so far: the buffer, every statement returned, whether no call
      failed, and whether one overflowed. Nothing is fed after a failure. */
  datatype Run = Run(buf: seq<Byte>, stmts: seq<Statement>, ok: bool, overflowed: bool)

  function Next(decode: seq<Byte> -> Decoded, max: int, r: Run, data: seq<Byte>): Run {
    if !r.ok then r
    else
      var (buf, out) := Inspected(decode, max, r.buf, data);
      Run(buf, r.stmts + out.stmts, out.Clean?, out.Overflow?)
  }

  function Fed(decode: seq<Byte> -> Decoded, max: int, chunks: seq<seq<Byte>>): Run {
    if chunks == [] then Run([], [], true, false)
    else Next(decode, max, Fed(decode, max, chunks[..|chunks| - 1]), chunks[|chunks| - 1])
  }

  // ---- codecs ---------------------------------------------------------------

  function Flat(xs: seq<seq<Statement>>): seq<Statement> {
    if xs == [] then [] else xs[0] + Flat(xs[1..])
  }

  lemma {:induction false} FlatAppend(xs: seq<seq<Statement>>, ys: seq<seq<Statement>>)
    ensures Flat(xs + ys) == Flat(xs) + Flat(ys)
  {
    if xs == [] {
      assert xs + ys == ys;
    } else {
      FlatAppend(xs[1..], ys);
      assert (xs + ys)[1..] == xs[1..] + ys && (xs + ys)[0] == xs[0];
    }
  }

  /** A message needs no more than its own bytes to be recognised. */
  predicate SelfContained(front: seq<Byte> -> Front<seq<Statement>>, d: seq<Byte>) {
    front(d).Whole? ==> front(d).len <= |d| && front(d[..front(d).len]) == front(d)
  }

  /** Decode returns the statements of as many messages as `front` finds. */
  predicate Takes(decode: seq<Byte> -> Decoded, front: seq<Byte> -> Front<seq<Statement>>, d: seq<Byte>) {
    var r := ScanAll(front, d);
    decode(d) == Decoded(Flat(r.msgs), r.used, r.bad)
  }

  /** A maximal, prefix-stable, length-framed codec. */
  ghost predicate Frames(decode: seq<Byte> -> Decoded, front: seq<Byte> -> Front<seq<Statement>>) {
    && PrefixStable(front) && front([]).Partial?
    && (forall d :: SelfContained(front, d))
    && (forall d :: Takes(decode, front, d))
  }

  /** Every message of the stream is recognised, or found malformed, by the time
      more than `max` bytes of it are there. */
  ghost predicate Fits(front: seq<Byte> -> Front<seq<Statement>>, max: int, d: seq<Byte>)
    decreases |d|
  {
    && (forall q :: max < q <= |d| && 0 <= q ==> !front(d[..q]).Partial?)
    && (front(d).Whole? && 0 < front(d).len <= |d| ==> Fits(front, max, d[front(d).len..]))
  }

  // ---- chunking does not matter ---------------------------------------------

  /** Until an overflow, feeding a stream in chunks returns the statements, and
      keeps the tail, of one decode of all of it. */
  lemma {:induction false} FedIsOneDecode(decode: seq<Byte> -> Decoded, front: seq<Byte> -> Front<seq<Statement>>,
                                          max: int, chunks: seq<seq<Byte>>)
    requires Frames(decode, front) && !Fed(decode, max, chunks).overflowed
    ensures Matches(decode, front, Fed(decode, max, chunks), Joined(chunks))
  {
    if chunks == [] {
      assert Takes(decode, front, []);
    } else {
      var before, data := chunks[..|chunks| - 1], chunks[|chunks| - 1];
      FedIsOneDecode(decode, front, max, before);
      OneMoreChunk(decode, front, max, Fed(decode, max, before), Joined(before), data);
    }
  }

  /** `r` is what one decode of `d` gives. */
  ghost predicate Matches(decode: seq<Byte> -> Decoded, front: seq<Byte> -> Front<seq<Statement>>, r: Run, d: seq<Byte>) {
    && r.stmts == decode(d).stmts
    && r.ok == !decode(d).malformed
    && (r.ok ==> decode(d).consumed <= |d| && r.buf == d[decode(d).consumed..] && front(r.buf).Partial?)
  }

  lemma OneMoreChunk(decode: seq<Byte> -> Decoded, front: seq<Byte> -> Front<seq<Statement>>,
                     max: int, r: Run, d: seq<Byte>, data: seq<Byte>)
    requires Frames(decode, front) && Matches(decode, front, r, d)
    ensures var r' := Next(decode, max, r, data); (r.ok && r'.overflowed) || Matches(decode, front, r', d + data)
  {
    assert Takes(decode, front, d) && Takes(decode, front, d + data);
    ScanSplit(front, d, data);
    if r.ok && (r.buf != [] || data != []) {
      ReadsOn(decode, front, r.buf, d, data);
    } else if r.ok {
      assert d + data == d;
    }
  }

  /** One more call of Decode, on the tail and the new bytes. */
  lemma ReadsOn(decode: seq<Byte> -> Decoded, front: seq<Byte> -> Front<seq<Statement>>,
                buf: seq<Byte>, d: seq<Byte>, data: seq<Byte>)
    requires Frames(decode, front) && !decode(d).malformed && decode(d).consumed <= |d| && buf == d[decode(d).consumed..]
    ensures var all, more := decode(d + data), decode(buf + data);
            && all.stmts == decode(d).stmts + more.stmts && all.malformed == more.malformed
            && all.consumed <= |d + data| && more.consumed <= |buf + data|
            && (d + data)[all.consumed..] == (buf + data)[more.consumed..]
            && (!all.malformed ==> front((d + data)[all.consumed..]).Partial?)
  {
    assert Takes(decode, front, d) && Takes(decode, front, d + data) && Takes(decode, front, buf + data);
    ScanSplit(front, d, data);
    RestSplit(front, d, data);
    FlatAppend(ScanAll(front, d).msgs, ScanAll(front, buf + data).msgs);
  }

  // ---- overflow -------------------------------------------------------------

  lemma {:induction false} FitsPrefix(front: seq<Byte> -> Front<seq<Statement>>, max: int, d: seq<Byte>, e: seq<Byte>)
    requires PrefixStable(front) && Fits(front, max, d + e)
    ensures Fits(front, max, d)
    decreases |d|
  {
    forall q | max < q <= |d| && 0 <= q ensures !front(d[..q]).Partial? {
      assert d[..q] == (d + e)[..q];
    }
    assert StableAt(front, d, e);
    if front(d).Whole? {
      var n := front(d).len;
      assert (d + e)[n..] == d[n..] + e;
      FitsPrefix(front, max, d[n..], e);
    }
  }

  lemma {:induction false} FitsRest(front: seq<Byte> -> Front<seq<Statement>>, max: int, d: seq<Byte>, e: seq<Byte>)
    requires PrefixStable(front) && Fits(front, max, d + e)
    ensures Fits(front, max, Rest(front, d) + e)
    decreases |d|
  {
    assert StableAt(front, d, e);
    if front(d).Whole? {
      var n := front(d).len;
      assert (d + e)[n..] == d[n..] + e;
      FitsRest(front, max, d[n..], e);
      assert Rest(front, d) == Rest(front, d[n..]);
    } else {
      assert Rest(front, d) == d;
    }
  }

  /** If every message fits, no chunking overflows. */
  lemma {:induction false} NoOverflowIfFits(decode: seq<Byte> -> Decoded, front: seq<Byte> -> Front<seq<Statement>>,
                                            max: int, chunks: seq<seq<Byte>>)
    requires Frames(decode, front) && Fits(front, max, Joined(chunks))
    ensures !Fed(decode, max, chunks).overflowed
  {
    if chunks != [] {
      var before, data := chunks[..|chunks| - 1], chunks[|chunks| - 1];
      var d, r := Joined(before), Fed(decode, max, before);
      FitsPrefix(front, max, d, data);
      NoOverflowIfFits(decode, front, max, before);
      FedIsOneDecode(decode, front, max, before);
      if r.ok {
        assert Takes(decode, front, d) && Takes(decode, front, r.buf + data);
        FitsRest(front, max, d, data);
        assert StableAt(front, r.buf + data, []);
        assert (r.buf + data)[..|r.buf + data|] == r.buf + data;
      }
    }
  }

  /** Statements returned earlier only go in front. */
  lemma NextAfter(decode: seq<Byte> -> Decoded, max: int, x: seq<Statement>, r: Run, data: seq<Byte>)
    ensures var r' := Next(decode, max, r, data);
            Next(decode, max, r.(stmts := x + r.stmts), data) == r'.(stmts := x + r'.stmts)
  {
    var out := Inspected(decode, max, r.buf, data).1;
    assert (x + r.stmts) + out.stmts == x + (r.stmts + out.stmts);
  }

  /** A first chunk that decodes completely is as if it had not been there. */
  lemma {:induction false} FedAfterClean(decode: seq<Byte> -> Decoded, max: int, c: seq<Byte>, cs: seq<seq<Byte>>)
    requires Inspected(decode, max, [], c).0 == [] && Inspected(decode, max, [], c).1.Clean?
    ensures var r := Fed(decode, max, cs);
            Fed(decode, max, [c] + cs) == r.(stmts := Inspected(decode, max, [], c).1.stmts + r.stmts)
  {
    var all := [c] + cs;
    if cs == [] {
      assert all[..0] == [];
    } else {
      var before := cs[..|cs| - 1];
      FedAfterClean(decode, max, c, before);
      assert all[..|all| - 1] == [c] + before;
      NextAfter(decode, max, Inspected(decode, max, [], c).1.stmts, Fed(decode, max, before), cs[|cs| - 1]);
    }
  }

  lemma {:induction false} JoinedCons(c: seq<Byte>, cs: seq<seq<Byte>>)
    ensures Joined([c] + cs) == c + Joined(cs)
  {
    var all := [c] + cs;
    if cs == [] {
      assert all[..0] == [];
    } else {
      JoinedCons(c, cs[..|cs| - 1]);
      assert all[..|all| - 1] == [c] + cs[..|cs| - 1];
    }
  }

  /** If some message does not fit, this chunking overflows: the messages before
      it one by one, then as much of it as is still only part of a message. */
  lemma {:induction false} Overflowing(decode: seq<Byte> -> Decoded, front: seq<Byte> -> Front<seq<Statement>>,
                                       max: int, d: seq<Byte>)
    returns (chunks: seq<seq<Byte>>)
    requires Frames(decode, front) && max > 0 && !Fits(front, max, d)
    ensures Joined(chunks) == d && Fed(decode, max, chunks).overflowed
    decreases |d|
  {
    if q :| max < q <= |d| && front(d[..q]).Partial? {
      chunks := [d[..q]] + [d[q..]];
      assert chunks[..1] == [d[..q]] && [d[..q]][..0] == [] && [d[q..]][..0] == [];
      JoinedCons(d[..q], [d[q..]]);
      assert Takes(decode, front, d[..q]) && [] + d[..q] == d[..q];
      assert Fed(decode, max, [d[..q]]).overflowed;
    } else {
      var n := front(d).len;
      assert SelfContained(front, d) && Takes(decode, front, d[..n]) && [] + d[..n] == d[..n];
      assert Takes(decode, front, []) && d[..n][n..] == [];
      chunks := Overflowing(decode, front, max, d[n..]);
      FedAfterClean(decode, max, d[..n], chunks);
      JoinedCons(d[..n], chunks);
      chunks := [d[..n]] + chunks;
    }
  }

  /** A stream overflows under no chunking at all exactly when its messages fit. */
  lemma OverflowFreeExactly(decode: seq<Byte> -> Decoded, front: seq<Byte> -> Front<seq<Statement>>, max: int, d: seq<Byte>)
    requires Frames(decode, front) && max > 0
    ensures (forall chunks :: Joined(chunks) == d ==> !Fed(decode, max, chunks).overflowed) <==> Fits(front, max, d)
  {
    if Fits(front, max, d) {
      forall chunks | Joined(chunks) == d ensures !Fed(decode, max, chunks).overflowed {
        NoOverflowIfFits(decode, front, max, chunks);
      }
    } else {
      var chunks := Overflowing(decode, front, max, d);
    }
  }

  /** Feeding a stream whose messages fit, in any chunks, gives the statements and
      the tail of one decode of it. */
  lemma AnyChunking(decode: seq<Byte> -> Decoded, front: seq<Byte> -> Front<seq<Statement>>,
                    max: int, chunks: seq<seq<Byte>>)
    requires Frames(decode, front) && Fits(front, max, Joined(chunks))
    ensures Matches(decode, front, Fed(decode, max, chunks), Joined(chunks))
  {
    NoOverflowIfFits(decode, front, max, chunks);
    FedIsOneDecode(decode, front, max, chunks);
  }

  // ---- the buffer -----------------------------------------------------------

  function Largest(chunks: seq<seq<Byte>>): nat {
    if chunks == [] then 0
    else
      var n := Largest(chunks[..|chunks| - 1]);
      if n < |chunks[|chunks| - 1]| then |chunks[|chunks| - 1]| else n
  }

  /** While no call fails, the buffer never exceeds the larger of the limit and
      the largest chunk fed; the limit alone is no bound. */
  lemma {:induction false} BufferedBound(decode: seq<Byte> -> Decoded, front: seq<Byte> -> Front<seq<Statement>>,
                                         max: int, chunks: seq<seq<Byte>>)
    requires Frames(decode, front) && Fed(decode, max, chunks).ok
    ensures |Fed(decode, max, chunks).buf| <= max || |Fed(decode, max, chunks).buf| <= Largest(chunks)
  {
    if chunks != [] {
      var before, data := chunks[..|chunks| - 1], chunks[|chunks| - 1];
      var r := Fed(decode, max, before);
      BufferedBound(decode, front, max, before);
      FedIsOneDecode(decode, front, max, before);
      var input := r.buf + data;
      assert Takes(decode, front, input);
      if |input| > max && decode(input).consumed > 0 {
        FirstMessageReachesIn(front, r.buf, data);
      }
    }
  }

  /** What completes a partial message reaches beyond it. */
  lemma FirstMessageReachesIn(front: seq<Byte> -> Front<seq<Statement>>, buf: seq<Byte>, data: seq<Byte>)
    requires PrefixStable(front) && (forall d :: SelfContained(front, d))
    requires front(buf).Partial? && front(buf + data).Whole?
    ensures front(buf + data).len > |buf|
  {
    assert StableAt(front, buf + data, []);
    if front(buf + data).len <= |buf| {
      RecognisedEarlier(front, buf, data);
    }
  }

  lemma RecognisedEarlier(front: seq<Byte> -> Front<seq<Statement>>, buf: seq<Byte>, data: seq<Byte>)
    requires PrefixStable(front) && (forall d :: SelfContained(front, d))
    requires front(buf + data).Whole? && front(buf + data).len <= |buf|
    ensures front(buf) == front(buf + data)
  {
    var n := front(buf + data).len;
    assert SelfContained(front, buf + data);
    assert (buf + data)[..n] == buf[..n];
    assert StableAt(front, buf[..n], buf[n..]);
    assert buf[..n] + buf[n..] == buf;
  }

  /** An empty chunk is the no-op the documentation promises exactly when the
      buffer is within the limit; beyond it, it is an overflow. */
  lemma EmptyChunkIsNoOp(decode: seq<Byte> -> Decoded, front: seq<Byte> -> Front<seq<Statement>>, max: int, buf: seq<Byte>)
    requires Frames(decode, front) && max > 0 && front(buf).Partial?
    ensures Inspected(decode, max, buf, []) == (buf, Clean([])) <==> |buf| <= max
    ensures |buf| > max ==> Inspected(decode, max, buf, []) == ([], Overflow([]))
  {
    assert buf + [] == buf;
    assert Takes(decode, front, buf);
    assert buf[0..] == buf;
  }

  /** A failed call drops the buffer and still returns what was decoded before the
      failure; it is an overflow exactly when too much is buffered without progress. */
  lemma FailuresDropBuffer(decode: seq<Byte> -> Decoded, max: int, buf: seq<Byte>, data: seq<Byte>)
    requires buf != [] || data != []
    ensures var (buf', out) := Inspected(decode, max, buf, data);
            && out.stmts == decode(buf + data).stmts
            && (out.Malformed? <==> decode(buf + data).malformed)
            && (out.Overflow? <==> !decode(buf + data).malformed && decode(buf + data).consumed == 0 && |buf + data| > max)
            && (!out.Clean? ==> buf' == [])
  {
  }

  // ---- a codec --------------------------------------------------------------

  function Size(d: seq<Byte>): nat
    requires d != []
  {
    1 + (d[0] as int)
  }

  /** A message is a length byte and that many bytes. */
  function ByteFront(d: seq<Byte>): Front<seq<Statement>> {
    if d == [] || |d| < Size(d) then Partial else Whole([d[1..Size(d)]], Size(d))
  }

  function ByteDecode(d: seq<Byte>): Decoded {
    var r := ScanAll(ByteFront, d);
    Decoded(Flat(r.msgs), r.used, r.bad)
  }

  lemma ByteCodecFrames()
    ensures Frames(ByteDecode, ByteFront)
  {
    forall d, e ensures StableAt(ByteFront, d, e) {
      if !ByteFront(d).Partial? {
        assert (d + e)[1..Size(d)] == d[1..Size(d)];
      }
    }
    forall d ensures SelfContained(ByteFront, d) {
      if !ByteFront(d).Partial? {
        assert d[..Size(d)][1..Size(d)] == d[1..Size(d)];
      }
    }
    forall d ensures Takes(ByteDecode, ByteFront, d) {
    }
  }

  /** A buffer beyond the limit does arise, and then an empty chunk overflows. */
  lemma EmptyChunkCanOverflow()
    ensures Frames(ByteDecode, ByteFront)
    ensures Fed(ByteDecode, 3, [[0, 9, 1, 2, 3]]).ok && |Fed(ByteDecode, 3, [[0, 9, 1, 2, 3]]).buf| == 4
    ensures Fed(ByteDecode, 3, [[0, 9, 1, 2, 3], []]).overflowed
  {
    ByteCodecFrames();
    var c: seq<Byte> := [0, 9, 1, 2, 3];
    var one, two := [c], [c, []];
    assert one[..0] == [] && two[..1] == one;
    assert [] + c == c && c[1..] == [9, 1, 2, 3];
    assert ByteFront(c[1..]).Partial?;
    assert ScanAll(ByteFront, c).used == 1;
    assert Fed(ByteDecode, 3, one).buf == c[1..];
    EmptyChunkIsNoOp(ByteDecode, ByteFront, 3, c[1..]);
  }
}
