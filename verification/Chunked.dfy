/** Chunked request bodies (section 7.1 of RFC 9112): the encoding, and the
    decoding the HTTP proxy relies on. */
module Chunked {
  import opened Prelude

  const CRLF: seq<Byte> := [13, 10]
  const SEMICOLON: Byte := 59

  // ---- searching ------------------------------------------------------------

  predicate MatchesAt(s: seq<Byte>, pat: seq<Byte>, i: nat) {
    i + |pat| <= |s| && s[i..i + |pat|] == pat
  }

  /** The first place at or after `i` where `pat` occurs in `s`. */
  function IndexFrom(s: seq<Byte>, pat: seq<Byte>, i: nat): (r: Option<nat>)
    ensures r.Some? ==> i <= r.value && MatchesAt(s, pat, r.value)
    ensures r.Some? ==> forall j :: i <= j < r.value ==> !MatchesAt(s, pat, j)
    ensures r.None? ==> forall j: nat :: i <= j ==> !MatchesAt(s, pat, j)
    decreases |s| - i
  {
    if i + |pat| > |s| then None
    else if s[i..i + |pat|] == pat then Some(i)
    else IndexFrom(s, pat, i + 1)
  }

  function Index(s: seq<Byte>, pat: seq<Byte>): (r: Option<nat>)
    ensures r.Some? ==> MatchesAt(s, pat, r.value) && forall j :: 0 <= j < r.value ==> !MatchesAt(s, pat, j)
    ensures r.None? ==> forall j: nat :: !MatchesAt(s, pat, j)
  {
    IndexFrom(s, pat, 0)
  }

  /** An occurrence stays the first one when bytes are added behind. */
  lemma IndexStable(s: seq<Byte>, pat: seq<Byte>, e: seq<Byte>)
    requires Index(s, pat).Some?
    ensures Index(s + e, pat) == Index(s, pat)
  {
    var i := Index(s, pat).value;
    assert (s + e)[i..i + |pat|] == s[i..i + |pat|];
    forall j | 0 <= j < i ensures !MatchesAt(s + e, pat, j) {
      assert (s + e)[j..j + |pat|] == s[j..j + |pat|];
      assert !MatchesAt(s, pat, j);
    }
    FirstIs(s + e, pat, i);
  }

  /** It is found as soon as its own bytes are there. */
  lemma IndexPrefix(s: seq<Byte>, pat: seq<Byte>, k: nat)
    requires Index(s, pat).Some? && Index(s, pat).value + |pat| <= k <= |s|
    ensures Index(s[..k], pat) == Index(s, pat)
  {
    var i := Index(s, pat).value;
    assert s[..k][i..i + |pat|] == s[i..i + |pat|];
    forall j | 0 <= j < i ensures !MatchesAt(s[..k], pat, j) {
      assert s[..k][j..j + |pat|] == s[j..j + |pat|];
      assert !MatchesAt(s, pat, j);
    }
    FirstIs(s[..k], pat, i);
  }

  lemma FirstIs(s: seq<Byte>, pat: seq<Byte>, i: nat)
    requires MatchesAt(s, pat, i) && forall j :: 0 <= j < i ==> !MatchesAt(s, pat, j)
    ensures Index(s, pat) == Some(i)
  {
  }

  // ---- sizes ----------------------------------------------------------------

  function Digit(n: nat): Byte
    requires n < 16
  {
    if n < 10 then 48 + n else 87 + n
  }

  /** The size of a chunk in hexadecimal, without leading zeros. */
  function Hex(n: nat): seq<Byte> {
    if n < 16 then [Digit(n)] else Hex(n / 16) + [Digit(n % 16)]
  }

  function DigitValue(b: Byte): Option<nat> {
    if 48 <= b <= 57 then Some(b - 48)
    else if 97 <= b <= 102 then Some(b - 87)
    else if 65 <= b <= 70 then Some(b - 55)
    else None
  }

  function HexValue(s: seq<Byte>): Option<nat> {
    if s == [] then None
    else
      var last := DigitValue(s[|s| - 1]);
      if last.None? then None
      else if |s| == 1 then last
      else
        var front := HexValue(s[..|s| - 1]);
        if front.None? then None else Some(16 * front.value + last.value)
  }

  lemma {:induction false} HexRoundTrip(n: nat)
    ensures HexValue(Hex(n)) == Some(n)
    ensures forall i :: 0 <= i < |Hex(n)| ==> Hex(n)[i] != 13 && Hex(n)[i] != SEMICOLON && Hex(n)[i] != 32 && Hex(n)[i] != 9
    ensures Hex(n)[|Hex(n)| - 1] == Digit(n % 16)
  {
    if n >= 16 {
      HexRoundTrip(n / 16);
      assert Hex(n)[..|Hex(n)| - 1] == Hex(n / 16);
    }
  }

  // ---- decoding -------------------------------------------------------------

  /** A size line without its trailing blanks and its extension. */
  function SizeField(line: seq<Byte>): seq<Byte> {
    var field := Trimmed(line);
    var semi := Index(field, [SEMICOLON]);
    if semi.Some? then field[..semi.value] else field
  }

  function Trimmed(s: seq<Byte>): seq<Byte> {
    if s != [] && (s[|s| - 1] == 32 || s[|s| - 1] == 9) then Trimmed(s[..|s| - 1]) else s
  }

  /** Sizes may be written in capitals. */
  function Capitals(s: seq<Byte>): seq<Byte> {
    seq(|s|, i requires 0 <= i < |s| => if 97 <= s[i] <= 102 then s[i] - 32 else s[i])
  }

  lemma {:induction false} CapitalSize(s: seq<Byte>)
    ensures HexValue(Capitals(s)) == HexValue(s)
  {
    if |s| > 1 {
      CapitalSize(s[..|s| - 1]);
      assert Capitals(s)[..|s| - 1] == Capitals(s[..|s| - 1]);
    }
  }

  lemma {:induction false} TrimmedKeeps(a: seq<Byte>, e: seq<Byte>)
    ensures a + [SEMICOLON] <= Trimmed(a + [SEMICOLON] + e)
  {
    var s := a + [SEMICOLON] + e;
    if e == [] {
      assert s == a + [SEMICOLON];
    } else if e[|e| - 1] == 32 || e[|e| - 1] == 9 {
      TrimmedKeeps(a, e[..|e| - 1]);
      assert s[..|s| - 1] == a + [SEMICOLON] + e[..|e| - 1];
    }
  }

  /** A chunk extension does not change the size, nor do blanks behind it. */
  lemma ExtensionIsIgnored(n: nat, ext: seq<Byte>)
    ensures HexValue(SizeField(Hex(n) + [SEMICOLON] + ext)) == Some(n)
  {
    var field := Trimmed(Hex(n) + [SEMICOLON] + ext);
    HexRoundTrip(n);
    TrimmedKeeps(Hex(n), ext);
    var k := |Hex(n)|;
    assert field[..k + 1] == Hex(n) + [SEMICOLON];
    assert field[k..k + 1] == [field[..k + 1][k]];
    forall j | 0 <= j < k ensures !MatchesAt(field, [SEMICOLON], j) {
      assert field[j..j + 1][0] == field[..k + 1][j] == Hex(n)[j] != SEMICOLON;
    }
    FirstIs(field, [SEMICOLON], k);
    assert field[..k] == field[..k + 1][..k] == Hex(n);
  }

  /** The body a chunked reader returns from `d`, or `None` when `d` ends early or
      is malformed. It stops at the zero-size chunk. */
  function Body(d: seq<Byte>): Option<seq<Byte>>
    decreases |d|
  {
    var eol := Index(d, CRLF);
    if eol.None? then None
    else
      var size := HexValue(SizeField(d[..eol.value]));
      var rest := d[eol.value + 2..];
      if size.None? then None
      else if size.value == 0 then Some([])
      else if |rest| < size.value + 2 || rest[size.value..size.value + 2] != CRLF then None
      else
        var more := Body(rest[size.value + 2..]);
        if more.None? then None else Some(rest[..size.value] + more.value)
  }

  // ---- encoding -------------------------------------------------------------

  /** The zero-size chunk and the empty trailer section. */
  const LAST: seq<Byte> := [48, 13, 10, 13, 10]

  function EncodeChunk(c: seq<Byte>): seq<Byte> {
    Hex(|c|) + CRLF + c + CRLF
  }

  function EncodeAll(chunks: seq<seq<Byte>>): seq<Byte> {
    if chunks == [] then [] else EncodeChunk(chunks[0]) + EncodeAll(chunks[1..])
  }

  function Encode(chunks: seq<seq<Byte>>): seq<Byte> {
    EncodeAll(chunks) + LAST
  }

  function Contents(chunks: seq<seq<Byte>>): seq<Byte> {
    if chunks == [] then [] else chunks[0] + Contents(chunks[1..])
  }

  /** A size line ends at the first CRLF and reads as the size. */
  lemma SizeLine(n: nat, rest: seq<Byte>)
    ensures Index(Hex(n) + CRLF + rest, CRLF) == Some(|Hex(n)|)
    ensures HexValue(SizeField(Hex(n))) == Some(n)
  {
    HexRoundTrip(n);
    var d := Hex(n) + CRLF + rest;
    assert d[|Hex(n)|..|Hex(n)| + 2] == CRLF;
    forall j | 0 <= j < |Hex(n)| ensures !MatchesAt(d, CRLF, j) {
      assert j + 2 <= |d| ==> d[j..j + 2][0] == Hex(n)[j] != CRLF[0];
    }
    FirstIs(d, CRLF, |Hex(n)|);
    forall j: nat ensures !MatchesAt(Hex(n), [SEMICOLON], j) {
      assert j < |Hex(n)| ==> Hex(n)[j..j + 1][0] == Hex(n)[j] != SEMICOLON;
    }
    assert Index(Hex(n), [SEMICOLON]) == None;
  }

  lemma BodyOfChunk(c: seq<Byte>, rest: seq<Byte>)
    requires c != []
    ensures Body(EncodeChunk(c) + rest) ==
            if Body(rest).None? then None else Some(c + Body(rest).value)
  {
    var tail := c + CRLF + rest;
    var d := EncodeChunk(c) + rest;
    assert d == Hex(|c|) + CRLF + tail;
    SizeLine(|c|, tail);
    assert d[..|Hex(|c|)|] == Hex(|c|);
    assert d[|Hex(|c|)| + 2..] == tail;
    assert tail[|c|..|c| + 2] == CRLF && tail[|c| + 2..] == rest && tail[..|c|] == c;
  }

  lemma EncodeCons(chunks: seq<seq<Byte>>)
    requires chunks != []
    ensures Encode(chunks) == EncodeChunk(chunks[0]) + Encode(chunks[1..])
  {
  }

  /** Decoding undoes encoding, for every list of non-empty chunks. */
  lemma {:induction false} BodyRoundTrip(chunks: seq<seq<Byte>>)
    requires [] !in chunks
    ensures Body(Encode(chunks)) == Some(Contents(chunks))
  {
    if chunks == [] {
      assert Hex(0) == [48] && Encode(chunks) == LAST;
      assert LAST == Hex(0) + CRLF + CRLF;
      SizeLine(0, CRLF);
      assert LAST[..1] == Hex(0);
    } else {
      BodyRoundTrip(chunks[1..]);
      BodyOfChunk(chunks[0], Encode(chunks[1..]));
      EncodeCons(chunks);
    }
  }

  /** The encoding holds no zero-size chunk before its own. */
  predicate NoEarlyEnd(chunks: seq<seq<Byte>>) {
    Index(Encode(chunks), LAST) == Some(|EncodeAll(chunks)|)
  }

  /** Wherever the first end is found, it is not behind the encoding's own. */
  lemma EndIsFound(chunks: seq<seq<Byte>>)
    ensures Index(Encode(chunks), LAST).Some? && Index(Encode(chunks), LAST).value <= |EncodeAll(chunks)|
  {
    assert MatchesAt(Encode(chunks), LAST, |EncodeAll(chunks)|);
  }

  /** A chunk that hides no end: its data holds none, does not finish what the
      chunk's own CRLF completes to one, and does not complete one begun by a size
      line that ends in a zero digit. */
  predicate Safe(c: seq<Byte>) {
    && Index(c, LAST).None?
    && !(|c| >= 3 && c[|c| - 3] == 48 && c[|c| - 2] == 13 && c[|c| - 1] == 10)
    && !(|c| >= 2 && |c| % 16 == 0 && c[0] == 13 && c[1] == 10)
  }

  predicate AllSafe(chunks: seq<seq<Byte>>) {
    chunks == [] || (Safe(chunks[0]) && AllSafe(chunks[1..]))
  }

  /** Byte by byte, what stands around the data of a chunk. */
  lemma ChunkBytes(c: seq<Byte>, rest: seq<Byte>, j: int)
    requires rest != []
    ensures var d, h, m := EncodeChunk(c) + rest, |Hex(|c|)|, |c|;
            0 <= j < h + m + 5 ==>
              d[j] == if j < h then Hex(m)[j] else if j == h || j == h + m + 2 then 13
                      else if j == h + 1 || j == h + m + 3 then 10 else if j == h + m + 4 then rest[0] else c[j - h - 2]
  {
  }

  lemma LastAt(d: seq<Byte>, j: nat)
    ensures MatchesAt(d, LAST, j) <==>
            j + 5 <= |d| && d[j] == 48 && d[j + 1] == 13 && d[j + 2] == 10 && d[j + 3] == 13 && d[j + 4] == 10
  {
    if j + 5 <= |d| {
      var w := d[j..j + 5];
      assert d[j] == w[0] && d[j + 1] == w[1] && d[j + 2] == w[2] && d[j + 3] == w[3] && d[j + 4] == w[4];
    }
  }

  /** An end that begins inside an encoded chunk begins with the last digit of its
      size, in its data, or three bytes before the end of its data. */
  lemma EndPlace(c: seq<Byte>, rest: seq<Byte>, j: nat)
    requires rest != [] && rest[0] != 13
    requires j < |EncodeChunk(c)| && MatchesAt(EncodeChunk(c) + rest, LAST, j)
    ensures var h, m := |Hex(|c|)|, |c|; j == h - 1 || h + 2 <= j <= h + m - 3 || (j == h + m - 1 && m >= 3)
  {
    var h, m := |Hex(|c|)|, |c|;
    LastAt(EncodeChunk(c) + rest, j);
    if j < h - 1 {
      HexRoundTrip(m);
      ChunkBytes(c, rest, j + 1);
    } else if j == h || j == h + 1 || j >= h + m + 2 {
      ChunkBytes(c, rest, j);
    } else if j == h + m - 2 {
      ChunkBytes(c, rest, j + 4);
    } else if j == h + m {
      ChunkBytes(c, rest, j + 2);
    } else if j == h + m + 1 {
      ChunkBytes(c, rest, j + 3);
    }
  }

  lemma EndAtSize(c: seq<Byte>, rest: seq<Byte>)
    requires c != [] && rest != [] && MatchesAt(EncodeChunk(c) + rest, LAST, |Hex(|c|)| - 1)
    ensures |c| >= 2 && |c| % 16 == 0 && c[0] == 13 && c[1] == 10
  {
    var h := |Hex(|c|)|;
    LastAt(EncodeChunk(c) + rest, h - 1);
    HexRoundTrip(|c|);
    ChunkBytes(c, rest, h - 1);
    assert |c| >= 2 && |c| % 16 == 0;
    ChunkBytes(c, rest, h + 2);
    ChunkBytes(c, rest, h + 3);
  }

  lemma EndInData(c: seq<Byte>, rest: seq<Byte>, i: nat)
    requires rest != [] && i + 5 <= |c| && MatchesAt(EncodeChunk(c) + rest, LAST, |Hex(|c|)| + 2 + i)
    ensures MatchesAt(c, LAST, i)
  {
    var j := |Hex(|c|)| + 2 + i;
    LastAt(EncodeChunk(c) + rest, j);
    ChunkBytes(c, rest, j);
    ChunkBytes(c, rest, j + 1);
    ChunkBytes(c, rest, j + 2);
    ChunkBytes(c, rest, j + 3);
    ChunkBytes(c, rest, j + 4);
    LastAt(c, i);
  }

  lemma EndAtTail(c: seq<Byte>, rest: seq<Byte>)
    requires rest != [] && |c| >= 3 && MatchesAt(EncodeChunk(c) + rest, LAST, |Hex(|c|)| + |c| - 1)
    ensures c[|c| - 3] == 48 && c[|c| - 2] == 13 && c[|c| - 1] == 10
  {
    var j := |Hex(|c|)| + |c| - 1;
    LastAt(EncodeChunk(c) + rest, j);
    ChunkBytes(c, rest, j);
    ChunkBytes(c, rest, j + 1);
    ChunkBytes(c, rest, j + 2);
  }

  lemma EndWithin(c: seq<Byte>, rest: seq<Byte>, j: nat)
    requires c != [] && rest != [] && rest[0] != 13
    requires j < |EncodeChunk(c)| && MatchesAt(EncodeChunk(c) + rest, LAST, j)
    ensures !Safe(c)
  {
    var h, m := |Hex(|c|)|, |c|;
    EndPlace(c, rest, j);
    if j == h - 1 {
      EndAtSize(c, rest);
    } else if j <= h + m - 3 {
      EndInData(c, rest, j - h - 2);
    } else {
      EndAtTail(c, rest);
    }
  }

  lemma EndOfUnsafe(c: seq<Byte>, rest: seq<Byte>) returns (j: nat)
    requires c != [] && rest != [] && !Safe(c)
    ensures j < |EncodeChunk(c)| && MatchesAt(EncodeChunk(c) + rest, LAST, j)
  {
    var h, m := |Hex(|c|)|, |c|;
    if Index(c, LAST).Some? {
      LastAt(c, Index(c, LAST).value);
      j := h + 2 + Index(c, LAST).value;
    } else if m >= 3 && c[m - 3] == 48 && c[m - 2] == 13 && c[m - 1] == 10 {
      j := h + m - 1;
    } else {
      HexRoundTrip(m);
      j := h - 1;
    }
    ChunkBytes(c, rest, j);
    ChunkBytes(c, rest, j + 1);
    ChunkBytes(c, rest, j + 2);
    ChunkBytes(c, rest, j + 3);
    ChunkBytes(c, rest, j + 4);
    LastAt(EncodeChunk(c) + rest, j);
  }

  /** The bytes that follow a chunk never start with a carriage return. */
  lemma EncodeStarts(chunks: seq<seq<Byte>>)
    ensures Encode(chunks) != [] && Encode(chunks)[0] != 13
  {
    if chunks != [] {
      HexRoundTrip(|chunks[0]|);
      EncodeCons(chunks);
    }
  }

  lemma ShiftedMatch(a: seq<Byte>, b: seq<Byte>, j: nat)
    ensures MatchesAt(a + b, LAST, |a| + j) <==> MatchesAt(b, LAST, j)
  {
    if j + 5 <= |b| {
      assert (a + b)[|a| + j..|a| + j + 5] == b[j..j + 5];
    }
  }

  /** The first end behind a safe chunk is the one in what follows it. */
  lemma FirstEnd(c: seq<Byte>, b: seq<Byte>)
    requires c != [] && b != [] && b[0] != 13 && Index(b, LAST).Some?
    ensures Index(EncodeChunk(c) + b, LAST).Some?
    ensures var i := Index(EncodeChunk(c) + b, LAST).value;
            if Safe(c) then i == |EncodeChunk(c)| + Index(b, LAST).value else i < |EncodeChunk(c)|
  {
    var a := EncodeChunk(c);
    ShiftedMatch(a, b, Index(b, LAST).value);
    var i := Index(a + b, LAST).value;
    if i < |a| {
      EndWithin(c, b, i);
    } else {
      ShiftedMatch(a, b, i - |a|);
    }
    if !Safe(c) {
      var j := EndOfUnsafe(c, b);
    }
  }

  /** The encoding holds no earlier end exactly when every chunk is safe. */
  lemma {:induction false} NoEarlyEndExactly(chunks: seq<seq<Byte>>)
    requires [] !in chunks
    ensures NoEarlyEnd(chunks) <==> AllSafe(chunks)
  {
    EndIsFound(chunks);
    if chunks != [] {
      var more := chunks[1..];
      NoEarlyEndExactly(more);
      EncodeStarts(more);
      EncodeCons(chunks);
      EndIsFound(more);
      FirstEnd(chunks[0], Encode(more));
    }
  }

  /** If some chunk is not safe, the first end found lies, with all its bytes,
      before the encoding's own. */
  lemma {:induction false} EarlyEndIsInside(chunks: seq<seq<Byte>>)
    requires [] !in chunks && !AllSafe(chunks)
    ensures Index(Encode(chunks), LAST).Some? && Index(Encode(chunks), LAST).value + 5 <= |EncodeAll(chunks)|
  {
    var c, more := chunks[0], chunks[1..];
    EncodeStarts(more);
    EncodeCons(chunks);
    EndIsFound(more);
    FirstEnd(c, Encode(more));
    if Safe(c) {
      EarlyEndIsInside(more);
    } else {
      EndPlace(c, Encode(more), Index(Encode(chunks), LAST).value);
    }
  }

  // ---- decoding what was cut off --------------------------------------------

  lemma NoLine(d: seq<Byte>)
    requires forall i :: 0 <= i < |d| - 1 ==> d[i] != 13
    ensures Body(d) == None
  {
    forall j: nat ensures !MatchesAt(d, CRLF, j) {
      assert j + 2 <= |d| ==> d[j..j + 2][0] == d[j];
    }
  }

  lemma CutChunk(c: seq<Byte>, n: nat)
    requires c != [] && n < |EncodeChunk(c)|
    ensures Body(EncodeChunk(c)[..n]) == None
  {
    var h, d := |Hex(|c|)|, EncodeChunk(c)[..n];
    HexRoundTrip(|c|);
    if n < h + 2 {
      assert forall i :: 0 <= i < n - 1 ==> d[i] == Hex(|c|)[i];
      NoLine(d);
    } else {
      var rest := (c + CRLF)[..n - h - 2];
      assert d == Hex(|c|) + CRLF + rest;
      SizeLine(|c|, rest);
      assert d[..h] == Hex(|c|) && d[h + 2..] == rest;
    }
  }

  /** An encoded body cut off before the line of its last chunk is not a body. */
  lemma {:induction false} CutBody(chunks: seq<seq<Byte>>, n: nat)
    requires [] !in chunks && n <= |EncodeAll(chunks)|
    ensures Body(Encode(chunks)[..n]) == None
  {
    if chunks == [] {
      NoLine([]);
    } else {
      var a, b := EncodeChunk(chunks[0]), Encode(chunks[1..]);
      EncodeCons(chunks);
      if n < |a| {
        assert (a + b)[..n] == a[..n];
        CutChunk(chunks[0], n);
      } else {
        assert (a + b)[..n] == a + b[..n - |a|];
        CutBody(chunks[1..], n - |a|);
        BodyOfChunk(chunks[0], b[..n - |a|]);
      }
    }
  }

  lemma {:induction false} UnsafeMember(chunks: seq<seq<Byte>>, c: seq<Byte>)
    requires c in chunks && !Safe(c)
    ensures !AllSafe(chunks)
  {
    if c != chunks[0] {
      UnsafeMember(chunks[1..], c);
    }
  }
}
