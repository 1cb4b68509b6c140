/** The HTTP proxy's request reassembly (_libhoop/httpproxy.go). */
module HttpProxying {
  import opened Prelude
  import opened Framing
  import opened Chunked

  const MAX_BUFFERED := 33554432
  const HEADERS_END: seq<Byte> := [13, 10, 13, 10]
  const CHUNKED: seq<Byte> := [99, 104, 117, 110, 107, 101, 100]

  /** What the standard library's request parser returns; `contentLength` is -1
      when the length is unknown. */
  datatype Header = Header(text: seq<Byte>, upgrade: seq<Byte>, contentLength: int, transferEncoding: seq<seq<Byte>>)

  /** A request as it is forwarded. */
  datatype Request = Request(header: Header, body: seq<Byte>)

  /** Parsing a request's headers; `None` when they are incomplete or garbage. */
  type Parser = seq<Byte> -> Option<Header>

  function IsChunked(h: Header): bool {
    CHUNKED in h.transferEncoding
  }

  /** A chunked request whose headers take `start` bytes and are followed by `tail`:
      the body ends where the zero-size chunk is first found. */
  function ReadChunked(h: Header, start: nat, tail: seq<Byte>): (r: Front<Request>)
    ensures r.Whole? ==> start < r.len <= start + |tail|
  {
    var last := Index(tail, LAST);
    if last.None? then Partial
    else
      var body := Body(tail[..last.value + 5]);
      if body.None? then Bad else Whole(Dechunked(h, body.value), start + last.value + 5)
  }

  /** The request forwarded for a chunked one: the body in one piece. */
  function Dechunked(h: Header, body: seq<Byte>): Request {
    Request(h.(contentLength := |body|, transferEncoding := []), body)
  }

  /** A request whose headers take `start` bytes and are followed by `tail`. The
      length of a request is an unbounded integer here. */
  function ReadBody(h: Header, start: nat, tail: seq<Byte>): (r: Front<Request>)
    ensures r.Whole? ==> start <= r.len <= start + |tail|
  {
    if h.upgrade != [] then Bad
    else if h.contentLength > 0 then
      if |tail| < h.contentLength then Partial
      else Whole(Request(h, tail[..h.contentLength]), start + h.contentLength)
    else if IsChunked(h) then ReadChunked(h, start, tail)
    else Whole(Request(h, []), start)
  }

  /** One request from the front of `buf`. */
  function ReadRequest(parse: Parser, buf: seq<Byte>): (r: Front<Request>)
    ensures r.Whole? ==> 4 <= r.len <= |buf|
  {
    var h := parse(buf);
    var end := Index(buf, HEADERS_END);
    if h.None? || end.None? then Partial else ReadBody(h.value, end.value + 4, buf[end.value + 4..])
  }

  function Reader(parse: Parser): seq<Byte> -> Front<Request> {
    b => ReadRequest(parse, b)
  }

  /** Headers once parsed stay parsed, and the header block alone decides. */
  predicate ParsesAlike(parse: Parser, d: seq<Byte>, e: seq<Byte>) {
    && (parse(d).Some? ==> parse(d + e) == parse(d))
    && (parse(d).Some? && Index(d, HEADERS_END).Some? ==> parse(d[..Index(d, HEADERS_END).value + 4]) == parse(d))
  }

  ghost predicate Lawful(parse: Parser) {
    forall d, e :: ParsesAlike(parse, d, e)
  }

  /** A parser that takes every header block for that of a chunked request. */
  function BlockParse(d: seq<Byte>): Option<Header> {
    var end := Index(d, HEADERS_END);
    if end.None? then None else Some(Header(d[..end.value + 4], [], -1, [CHUNKED]))
  }

  /** The law asks nothing contradictory. */
  lemma BlockParseIsLawful()
    ensures Lawful(BlockParse)
  {
    forall d, e ensures ParsesAlike(BlockParse, d, e) {
      if BlockParse(d).Some? {
        var n := Index(d, HEADERS_END).value + 4;
        IndexStable(d, HEADERS_END, e);
        IndexPrefix(d, HEADERS_END, n);
        assert (d + e)[..n] == d[..n] == d[..n][..n];
      }
    }
  }

  lemma BodyIsStable(h: Header, start: nat, tail: seq<Byte>, e: seq<Byte>)
    requires !ReadBody(h, start, tail).Partial?
    ensures ReadBody(h, start, tail + e) == ReadBody(h, start, tail)
  {
    if h.upgrade != [] {
    } else if h.contentLength > 0 {
      assert (tail + e)[..h.contentLength] == tail[..h.contentLength];
    } else if IsChunked(h) {
      var n := Index(tail, LAST).value + 5;
      IndexStable(tail, LAST, e);
      assert (tail + e)[..n] == tail[..n];
    }
  }

  lemma ReadStableAt(parse: Parser, d: seq<Byte>, e: seq<Byte>)
    requires ParsesAlike(parse, d, e) && !ReadRequest(parse, d).Partial?
    ensures ReadRequest(parse, d + e) == ReadRequest(parse, d)
  {
    IndexStable(d, HEADERS_END, e);
    var start := Index(d, HEADERS_END).value + 4;
    assert (d + e)[start..] == d[start..] + e;
    BodyIsStable(parse(d).value, start, d[start..], e);
  }

  /** What has been recognised as a request, or refused, never changes. */
  lemma ReaderIsStable(parse: Parser)
    requires Lawful(parse)
    ensures PrefixStable(Reader(parse))
  {
    forall d, e ensures StableAt(Reader(parse), d, e) {
      assert ParsesAlike(parse, d, e);
      if !ReadRequest(parse, d).Partial? {
        ReadStableAt(parse, d, e);
      }
    }
  }

  // ---- the proxy ------------------------------------------------------------

  datatype Error = NoError | TooLarge | Refused | Upstream

  /** The bytes `d` are exactly the requests `reqs`. */
  ghost predicate Holds(parse: Parser, d: seq<Byte>, reqs: seq<Request>) {
    ScanAll(Reader(parse), d) == Scan(reqs, |d|, false)
  }

  class HttpProxy {
    const parse: Parser
    /** Whether the upstream round trip of the k-th request forwarded succeeds. */
    const upstream: (nat, Request) -> bool
    var buf: seq<Byte>
    /** What the upstream was sent. */
    var forwarded: seq<Request>
    ghost var written: seq<Byte>
    ghost var consumed: seq<Byte>

    /** Nothing written is lost, and what was consumed is exactly the requests
        forwarded, in order. */
    ghost predicate Valid()
      reads this
    {
      Lawful(parse) && consumed + buf == written && Holds(parse, consumed, forwarded)
    }

    constructor (parse: Parser, upstream: (nat, Request) -> bool)
      requires Lawful(parse)
      ensures Valid() && this.parse == parse && this.upstream == upstream
      ensures written == [] && buf == [] && forwarded == []
    {
      this.parse, this.upstream := parse, upstream;
      buf, written, consumed, forwarded := [], [], [], [];
      new;
      HoldsNothing(parse);
    }

    /** A scan of everything written finds the requests forwarded and stops where
        the buffer begins, at something malformed or not. */
    ghost predicate UpToDate(bad: bool)
      reads this
    {
      && ScanAll(Reader(parse), written) == Scan(forwarded, |consumed|, bad)
      && |consumed| <= |written| && buf == written[|consumed|..]
    }

    /** Without an error, what has been forwarded and what is left depend on the
        bytes written and not on how they were split: they are the requests and
        the rest of one scan of all of them, and the rest is only part of one. */
    method Write(data: seq<Byte>) returns (err: Error)
      requires Valid()
      modifies this
      ensures Valid() && written == old(written) + data && old(forwarded) <= forwarded
      ensures err.TooLarge? <==> |old(buf)| + |data| > 32 * 1024 * 1024
      ensures err.TooLarge? ==> forwarded == old(forwarded) && buf == old(buf) + data
      ensures err.NoError? ==> UpToDate(false) && ReadRequest(parse, buf).Partial?
      ensures err.Refused? ==> UpToDate(true) && ReadRequest(parse, buf).Bad?
      ensures err.Upstream? ==> |forwarded| > |old(forwarded)| && !upstream(|forwarded| - 1, forwarded[|forwarded| - 1])
    {
      buf := buf + data;
      written := written + data;
      if |buf| > MAX_BUFFERED {
        return TooLarge;
      }
      err := Serve();
    }

    /** Forwards every complete request in the buffer. */
    method Serve() returns (err: Error)
      requires Valid()
      modifies this
      ensures Valid() && written == old(written) && old(forwarded) <= forwarded && !err.TooLarge?
      ensures err.NoError? ==> UpToDate(false) && ReadRequest(parse, buf).Partial?
      ensures err.Refused? ==> UpToDate(true) && ReadRequest(parse, buf).Bad?
      ensures err.Upstream? ==> |forwarded| > |old(forwarded)| && !upstream(|forwarded| - 1, forwarded[|forwarded| - 1])
    {
      while true
        invariant Valid() && written == old(written) && old(forwarded) <= forwarded
        decreases |buf|
      {
        var r := ReadRequest(parse, buf);
        if !r.Whole? {
          StopsHere(parse, consumed, forwarded, buf);
          return if r.Bad? then Refused else NoError;
        }
        Consume(r.msg, r.len);
        if !upstream(|forwarded| - 1, r.msg) {
          return Upstream;
        }
      }
    }

    /** Takes the request at the front of the buffer. */
    method Consume(req: Request, n: nat)
      requires Valid() && ReadRequest(parse, buf) == Whole(req, n)
      modifies this
      ensures Valid() && written == old(written) && buf == old(buf[n..])
      ensures forwarded == old(forwarded) + [req]
    {
      HoldsOneMore(parse, consumed, forwarded, buf);
      assert buf == buf[..n] + buf[n..];
      consumed := consumed + buf[..n];
      forwarded := forwarded + [req];
      buf := buf[n..];
    }
  }

  lemma HoldsNothing(parse: Parser)
    ensures Holds(parse, [], [])
  {
    assert Index([], HEADERS_END) == None;
  }

  lemma BodySelfContained(h: Header, start: nat, tail: seq<Byte>, n: nat)
    requires ReadBody(h, start, tail).Whole? && n == ReadBody(h, start, tail).len - start
    ensures ReadBody(h, start, tail[..n]) == ReadBody(h, start, tail)
  {
    if h.contentLength > 0 {
      assert tail[..n][..n] == tail[..n];
    } else if IsChunked(h) {
      IndexPrefix(tail, LAST, n);
      assert tail[..n][..n] == tail[..n];
    }
  }

  lemma TailSelfContained(parse: Parser, header: seq<Byte>, h: Header, tail: seq<Byte>, n: nat)
    requires Lawful(parse) && IsHeader(parse, header, h)
    requires ReadBody(h, |header|, tail).Whole? && n == ReadBody(h, |header|, tail).len - |header|
    ensures ReadRequest(parse, header + tail[..n]) == ReadRequest(parse, header + tail)
  {
    HeaderFront(parse, header, h, tail);
    HeaderFront(parse, header, h, tail[..n]);
    BodySelfContained(h, |header|, tail, n);
  }

  lemma OwnHeader(parse: Parser, d: seq<Byte>)
    requires Lawful(parse) && !ReadRequest(parse, d).Partial?
    ensures IsHeader(parse, d[..Index(d, HEADERS_END).value + 4], parse(d).value)
  {
    assert ParsesAlike(parse, d, []);
    IndexPrefix(d, HEADERS_END, Index(d, HEADERS_END).value + 4);
  }

  /** A request needs no more than its own bytes to be recognised. */
  lemma ReadSelfContained(parse: Parser, d: seq<Byte>)
    requires Lawful(parse) && ReadRequest(parse, d).Whole?
    ensures ReadRequest(parse, d[..ReadRequest(parse, d).len]) == ReadRequest(parse, d)
  {
    var n, start := ReadRequest(parse, d).len, Index(d, HEADERS_END).value + 4;
    OwnHeader(parse, d);
    CutTwice(d, start, n);
    TailSelfContained(parse, d[..start], parse(d).value, d[start..], n - start);
  }

  lemma CutTwice(d: seq<Byte>, start: nat, n: nat)
    requires start <= n <= |d|
    ensures d[..start] + d[start..] == d && d[..start] + d[start..][..n - start] == d[..n]
  {
  }

  /** The bytes of one request are that request. */
  lemma HoldsOne(parse: Parser, buf: seq<Byte>)
    requires Lawful(parse) && ReadRequest(parse, buf).Whole?
    ensures Holds(parse, buf[..ReadRequest(parse, buf).len], [ReadRequest(parse, buf).msg])
  {
    var r := ReadRequest(parse, buf);
    ReadSelfContained(parse, buf);
    assert buf[..r.len][r.len..] == [];
    HoldsNothing(parse);
  }

  lemma HoldsOneMore(parse: Parser, consumed: seq<Byte>, forwarded: seq<Request>, buf: seq<Byte>)
    requires Lawful(parse) && ReadRequest(parse, buf).Whole? && Holds(parse, consumed, forwarded)
    ensures var r := ReadRequest(parse, buf); Holds(parse, consumed + buf[..r.len], forwarded + [r.msg])
  {
    var own := buf[..ReadRequest(parse, buf).len];
    ReaderIsStable(parse);
    HoldsOne(parse, buf);
    ScanSplit(Reader(parse), consumed, own);
    assert consumed[|consumed|..] + own == own;
  }

  /** Behind what was consumed there is no further request. */
  lemma StopsHere(parse: Parser, consumed: seq<Byte>, forwarded: seq<Request>, buf: seq<Byte>)
    requires Lawful(parse) && !ReadRequest(parse, buf).Whole? && Holds(parse, consumed, forwarded)
    ensures ScanAll(Reader(parse), consumed + buf) == Scan(forwarded, |consumed|, ReadRequest(parse, buf).Bad?)
    ensures (consumed + buf)[|consumed|..] == buf
  {
    ReaderIsStable(parse);
    ScanSplit(Reader(parse), consumed, buf);
    assert consumed[|consumed|..] + buf == buf;
    assert forwarded + [] == forwarded;
  }

  // ---- runs of writes -------------------------------------------------------

  /** A proxy fed by writes none of which failed, or `None`. */
  datatype Served = Served(buf: seq<Byte>, forwarded: seq<Request>)

  function ServeAll(read: seq<Byte> -> Front<Request>, writes: seq<seq<Byte>>): Option<Served> {
    if writes == [] then Some(Served([], []))
    else
      var s := ServeAll(read, writes[..|writes| - 1]);
      if s.None? then None
      else
        var input := s.value.buf + writes[|writes| - 1];
        var r := ScanAll(read, input);
        if |input| > MAX_BUFFERED || r.bad then None
        else Some(Served(input[r.used..], s.value.forwarded + r.msgs))
  }

  /** Writes that fail nowhere serve exactly the requests of the whole stream. */
  lemma {:induction false} ServedIsOneScan(read: seq<Byte> -> Front<Request>, writes: seq<seq<Byte>>)
    requires PrefixStable(read) && read([]).Partial? && ServeAll(read, writes).Some?
    ensures var s, r := ServeAll(read, writes).value, ScanAll(read, Joined(writes));
            && s.forwarded == r.msgs && s.buf == Rest(read, Joined(writes)) && !r.bad
            && read(s.buf).Partial?
  {
    if writes != [] {
      var before, data := writes[..|writes| - 1], writes[|writes| - 1];
      ServedIsOneScan(read, before);
      ScanSplit(read, Joined(before), data);
      RestSplit(read, Joined(before), data);
    }
  }

  /** No write finds more than the cap waiting, and nothing malformed turns up. */
  ghost predicate Servable(read: seq<Byte> -> Front<Request>, writes: seq<seq<Byte>>) {
    writes == [] ||
    var before, data := writes[..|writes| - 1], writes[|writes| - 1];
    && Servable(read, before)
    && |Rest(read, Joined(before))| + |data| <= 32 * 1024 * 1024
    && !ScanAll(read, Joined(writes)).bad
  }

  /** And that is exactly when no write fails. */
  lemma {:induction false} ServesExactly(read: seq<Byte> -> Front<Request>, writes: seq<seq<Byte>>)
    requires PrefixStable(read) && read([]).Partial?
    ensures ServeAll(read, writes).Some? <==> Servable(read, writes)
  {
    if writes != [] {
      var before, data := writes[..|writes| - 1], writes[|writes| - 1];
      ServesExactly(read, before);
      if ServeAll(read, before).Some? {
        ServedIsOneScan(read, before);
        ScanSplit(read, Joined(before), data);
      }
    }
  }

  /** Two ways of splitting the same bytes that both fail nowhere forward the same
      requests in the same order and keep the same rest. */
  lemma SplitsServeAlike(parse: Parser, writes: seq<seq<Byte>>, writes': seq<seq<Byte>>)
    requires Lawful(parse) && Joined(writes) == Joined(writes')
    requires ServeAll(Reader(parse), writes).Some? && ServeAll(Reader(parse), writes').Some?
    ensures ServeAll(Reader(parse), writes) == ServeAll(Reader(parse), writes')
  {
    ReaderIsStable(parse);
    assert Index([], HEADERS_END) == None;
    ServedIsOneScan(Reader(parse), writes);
    ServedIsOneScan(Reader(parse), writes');
  }

  // ---- what each kind of request reads as -----------------------------------

  /** `header` is a complete header block that parses as `h`. */
  predicate IsHeader(parse: Parser, header: seq<Byte>, h: Header) {
    parse(header) == Some(h) && Index(header, HEADERS_END) == Some(|header| - 4)
  }

  lemma HeaderFront(parse: Parser, header: seq<Byte>, h: Header, tail: seq<Byte>)
    requires Lawful(parse) && IsHeader(parse, header, h)
    ensures ReadRequest(parse, header + tail) == ReadBody(h, |header|, tail)
  {
    assert ParsesAlike(parse, header, tail);
    IndexStable(header, HEADERS_END, tail);
    assert (header + tail)[|header|..] == tail;
  }

  /** A protocol upgrade is refused, whatever follows. */
  lemma UpgradeIsRefused(parse: Parser, header: seq<Byte>, h: Header, tail: seq<Byte>)
    requires Lawful(parse) && IsHeader(parse, header, h) && h.upgrade != []
    ensures ReadRequest(parse, header + tail) == Bad
  {
    HeaderFront(parse, header, h, tail);
  }

  /** With a Content-Length the request is its header and exactly that many bytes,
      whatever follows, even when it also claims to be chunked. */
  lemma SizedRoundTrip(parse: Parser, header: seq<Byte>, h: Header, body: seq<Byte>, rest: seq<Byte>)
    requires Lawful(parse) && IsHeader(parse, header, h) && h.upgrade == []
    requires h.contentLength == |body| > 0
    ensures ReadRequest(parse, header + (body + rest)) == Whole(Request(h, body), |header| + |body|)
  {
    HeaderFront(parse, header, h, body + rest);
    assert (body + rest)[..|body|] == body;
  }

  /** With neither a length nor chunks the request is its header. */
  lemma BareRoundTrip(parse: Parser, header: seq<Byte>, h: Header, rest: seq<Byte>)
    requires Lawful(parse) && IsHeader(parse, header, h) && h.upgrade == []
    requires h.contentLength <= 0 && [99, 104, 117, 110, 107, 101, 100] !in h.transferEncoding
    ensures ReadRequest(parse, header + rest) == Whole(Request(h, []), |header|)
  {
    HeaderFront(parse, header, h, rest);
  }

  /** `header` is a complete header block announcing a chunked body. */
  predicate AnnouncesChunks(parse: Parser, header: seq<Byte>, h: Header) {
    && IsHeader(parse, header, h) && h.upgrade == [] && h.contentLength <= 0
    && [99, 104, 117, 110, 107, 101, 100] in h.transferEncoding
  }

  /** For every list of non-empty chunks, and whatever bytes follow: if no chunk
      hides an end, the proxy consumes exactly the encoded request and forwards the
      chunks' contents; if one does, it refuses the request. */
  lemma ChunkedRoundTrip(parse: Parser, header: seq<Byte>, h: Header, chunks: seq<seq<Byte>>, rest: seq<Byte>)
    requires Lawful(parse) && AnnouncesChunks(parse, header, h) && [] !in chunks
    ensures ReadRequest(parse, header + (Encode(chunks) + rest)) ==
            if AllSafe(chunks)
            then Whole(Request(h.(contentLength := |Contents(chunks)|, transferEncoding := []), Contents(chunks)),
                       |header| + |Encode(chunks)|)
            else Bad
  {
    var enc := Encode(chunks);
    EndIsFound(chunks);
    NoEarlyEndExactly(chunks);
    IndexStable(enc, LAST, rest);
    HeaderFront(parse, header, h, enc + rest);
    var n := Index(enc, LAST).value + 5;
    assert (enc + rest)[..n] == enc[..n];
    if AllSafe(chunks) {
      assert enc[..n] == enc;
      BodyRoundTrip(chunks);
    } else {
      EarlyEndIsInside(chunks);
      CutBody(chunks, n);
    }
  }

  /** For instance, a chunk whose size is a multiple of sixteen and whose data starts
      with CRLF, anywhere in the list. */
  lemma LeadingCrlfIsRefused(parse: Parser, header: seq<Byte>, h: Header, chunks: seq<seq<Byte>>, c: seq<Byte>,
                             rest: seq<Byte>)
    requires Lawful(parse) && AnnouncesChunks(parse, header, h) && [] !in chunks
    requires c in chunks && |c| >= 2 && |c| % 16 == 0 && c[0] == 13 && c[1] == 10
    ensures ReadRequest(parse, header + (Encode(chunks) + rest)) == Bad
  {
    UnsafeMember(chunks, c);
    ChunkedRoundTrip(parse, header, h, chunks, rest);
  }

  // ---- a client's stream ----------------------------------------------------

  /** A request as a client sends it. */
  datatype Message =
    | Sized(header: seq<Byte>, h: Header, body: seq<Byte>)
    | Bare(header: seq<Byte>, h: Header)
    | InChunks(header: seq<Byte>, h: Header, chunks: seq<seq<Byte>>)

  ghost predicate WellFormed(parse: Parser, m: Message) {
    && IsHeader(parse, m.header, m.h) && m.h.upgrade == []
    && match m
       case Sized(_, h, body) => h.contentLength == |body| > 0
       case Bare(_, h) => h.contentLength <= 0 && [99, 104, 117, 110, 107, 101, 100] !in h.transferEncoding
       case InChunks(header, h, chunks) => AnnouncesChunks(parse, header, h) && [] !in chunks && AllSafe(chunks)
  }

  function Bytes(m: Message): seq<Byte> {
    m.header + match m
               case Sized(_, _, body) => body
               case Bare(_, _) => []
               case InChunks(_, _, chunks) => Encode(chunks)
  }

  /** The request the upstream has to get. */
  function Meant(m: Message): Request {
    match m
    case Sized(_, h, body) => Request(h, body)
    case Bare(_, h) => Request(h, [])
    case InChunks(_, h, chunks) =>
      Request(h.(contentLength := |Contents(chunks)|, transferEncoding := []), Contents(chunks))
  }

  function Stream(ms: seq<Message>): seq<Byte> {
    if ms == [] then [] else Bytes(ms[0]) + Stream(ms[1..])
  }

  function AllMeant(ms: seq<Message>): seq<Request> {
    if ms == [] then [] else [Meant(ms[0])] + AllMeant(ms[1..])
  }

  lemma MessageReads(parse: Parser, m: Message, rest: seq<Byte>)
    requires Lawful(parse) && WellFormed(parse, m)
    ensures ReadRequest(parse, Bytes(m) + rest) == Whole(Meant(m), |Bytes(m)|)
  {
    match m
    case Sized(header, h, body) =>
      assert Bytes(m) + rest == header + (body + rest);
      SizedRoundTrip(parse, header, h, body, rest);
    case Bare(header, h) =>
      assert Bytes(m) == header;
      BareRoundTrip(parse, header, h, rest);
    case InChunks(header, h, chunks) =>
      assert Bytes(m) + rest == header + (Encode(chunks) + rest);
      ChunkedRoundTrip(parse, header, h, chunks, rest);
  }

  /** Part of a request is never forwarded nor refused. */
  lemma PartOfMessage(parse: Parser, m: Message, n: nat)
    requires Lawful(parse) && WellFormed(parse, m) && n < |Bytes(m)|
    ensures ReadRequest(parse, Bytes(m)[..n]).Partial?
  {
    var part, more := Bytes(m)[..n], Bytes(m)[n..];
    assert part + more == Bytes(m) == Bytes(m) + [];
    MessageReads(parse, m, []);
    assert ParsesAlike(parse, part, more);
    if !ReadRequest(parse, part).Partial? {
      ReadStableAt(parse, part, more);
    }
  }

  lemma {:induction false} StreamScans(parse: Parser, ms: seq<Message>)
    requires Lawful(parse) && forall m :: m in ms ==> WellFormed(parse, m)
    ensures ScanAll(Reader(parse), Stream(ms)) == Scan(AllMeant(ms), |Stream(ms)|, false)
  {
    if ms == [] {
      HoldsNothing(parse);
    } else {
      var first, more := Bytes(ms[0]), Stream(ms[1..]);
      MessageReads(parse, ms[0], more);
      StreamScans(parse, ms[1..]);
      assert (first + more)[|first|..] == more;
    }
  }

  /** However a client's requests are cut into writes: if no write fails, the upstream
      got exactly those requests, in order, and nothing is left. */
  lemma StreamIsServed(parse: Parser, ms: seq<Message>, writes: seq<seq<Byte>>)
    requires Lawful(parse) && forall m :: m in ms ==> WellFormed(parse, m)
    requires Joined(writes) == Stream(ms) && ServeAll(Reader(parse), writes).Some?
    ensures ServeAll(Reader(parse), writes) == Some(Served([], AllMeant(ms)))
  {
    ReaderIsStable(parse);
    HoldsNothing(parse);
    assert Index([], HEADERS_END) == None;
    ServedIsOneScan(Reader(parse), writes);
    StreamScans(parse, ms);
    assert Stream(ms)[|Stream(ms)|..] == [];
  }
}
