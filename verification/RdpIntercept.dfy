/** Forcing performance flags onto an RDP client (agentrs/src/rdp_proxy.rs): a
    two-way relay that rewrites at most one PDU, the Client Info PDU of section
    2.2.1.11 of MS-RDPBCGR.

    The codecs are the relay's parameters; what is needed of them is that encoding
    round-trips. */
module RdpIntercept {
  import opened Prelude

  type Frame = seq<Byte>

  datatype SendDataRequest = SendDataRequest(initiator: nat, channel: nat, userData: seq<Byte>)

  /** The optional fields, which the wire carries as a prefix of this order. */
  datatype OptionalInfo = OptionalInfo(
    timezone: Option<seq<Byte>>, sessionId: Option<nat>, flags: Option<bv32>, cookie: Option<seq<Byte>>)

  /** `rest` is everything before the optional fields, credentials included. */
  datatype ClientInfo = ClientInfo(rest: seq<Byte>, optional: OptionalInfo)

  datatype Codecs = Codecs(
    decodeRequest: Frame -> Option<SendDataRequest>,
    encodeRequest: SendDataRequest -> Option<Frame>,
    decodeInfo: seq<Byte> -> Option<ClientInfo>,
    encodeInfo: ClientInfo -> Option<seq<Byte>>)

  const DISABLE_WALLPAPER: bv32 := 0x1
  const DISABLE_FULLWINDOWDRAG: bv32 := 0x2
  const DISABLE_MENUANIMATIONS: bv32 := 0x4
  const DISABLE_THEMING: bv32 := 0x8

  const FORCED: bv32 := DISABLE_WALLPAPER | DISABLE_FULLWINDOWDRAG | DISABLE_MENUANIMATIONS | DISABLE_THEMING

  // ---- patching one frame ---------------------------------------------------

  function Current(o: OptionalInfo): bv32 {
    if o.flags.Some? then o.flags.value else 0
  }

  function Forced(o: OptionalInfo): OptionalInfo {
    o.(flags := Some(Current(o) | FORCED))
  }

  /** The info a frame carries, if it decodes and re-encodes to the same bytes. */
  function Faithful(c: Codecs, frame: Frame): Option<ClientInfo> {
    match c.decodeRequest(frame)
    case None => None
    case Some(request) =>
      match c.decodeInfo(request.userData)
      case None => None
      case Some(info) => if c.encodeInfo(info) == Some(request.userData) then Some(info) else None
  }

  /** That info with the flags forced, encoded again. */
  function ForcedInfo(c: Codecs, frame: Frame): Option<seq<Byte>> {
    match Faithful(c, frame)
    case None => None
    case Some(info) =>
      if info.optional.timezone.None? || info.optional.sessionId.None? then None
      else c.encodeInfo(info.(optional := Forced(info.optional)))
  }

  function Patch(c: Codecs, frame: Frame): Option<Frame> {
    match ForcedInfo(c, frame)
    case None => None
    case Some(bytes) => c.encodeRequest(c.decodeRequest(frame).value.(userData := bytes))
  }

  /** `g` is what has to be sent for the frame, which carries the request `q` with the
      info `i`: both decode, the info re-encodes to what was sent, time zone and
      session id are there, and `g` encodes the request around `bytes`, the same info
      with the low four flags set. */
  predicate Replaces(c: Codecs, frame: Frame, g: Frame, q: SendDataRequest, i: ClientInfo, bytes: seq<Byte>) {
    && c.decodeRequest(frame) == Some(q) && c.decodeInfo(q.userData) == Some(i)
    && c.encodeInfo(i) == Some(q.userData)
    && i.optional.timezone.Some? && i.optional.sessionId.Some?
    && c.encodeInfo(ClientInfo(i.rest, OptionalInfo(i.optional.timezone, i.optional.sessionId,
                                                    Some((if i.optional.flags.Some? then i.optional.flags.value else 0) | 0xF),
                                                    i.optional.cookie))) == Some(bytes)
    && c.encodeRequest(SendDataRequest(q.initiator, q.channel, bytes)) == Some(g)
  }

  lemma ForcedMask()
    ensures FORCED == 0xF
  {
  }

  lemma ReplacesIsPatch(c: Codecs, frame: Frame, g: Frame, q: SendDataRequest, i: ClientInfo, bytes: seq<Byte>)
    requires Replaces(c, frame, g, q, i, bytes)
    ensures Patch(c, frame) == Some(g)
  {
    ForcedMask();
    assert Faithful(c, frame) == Some(i);
    assert ForcedInfo(c, frame) == Some(bytes);
  }

  lemma PatchIsReplaces(c: Codecs, frame: Frame, g: Frame)
    requires Patch(c, frame) == Some(g)
    ensures Faithful(c, frame).Some? && ForcedInfo(c, frame).Some?
    ensures Replaces(c, frame, g, c.decodeRequest(frame).value, Faithful(c, frame).value, ForcedInfo(c, frame).value)
  {
    ForcedMask();
  }

  /** Exactly when a frame is patched, and to what. */
  lemma PatchExactly(c: Codecs, frame: Frame, g: Frame)
    ensures Patch(c, frame) == Some(g) <==> exists q, i, bytes :: Replaces(c, frame, g, q, i, bytes)
  {
    if Patch(c, frame) == Some(g) {
      PatchIsReplaces(c, frame, g);
    } else if q, i, bytes :| Replaces(c, frame, g, q, i, bytes) {
      ReplacesIsPatch(c, frame, g, q, i, bytes);
    }
  }

  predicate InOrder(o: OptionalInfo) {
    && (o.sessionId.Some? ==> o.timezone.Some?)
    && (o.flags.Some? ==> o.sessionId.Some?)
    && (o.cookie.Some? ==> o.flags.Some?)
  }

  ghost predicate RoundTrips(c: Codecs) {
    && (forall q: SendDataRequest :: c.encodeRequest(q).Some? ==> c.decodeRequest(c.encodeRequest(q).value) == Some(q))
    && (forall i: ClientInfo :: InOrder(i.optional) && c.encodeInfo(i).Some? ==> c.decodeInfo(c.encodeInfo(i).value) == Some(i))
  }

  /** The replacement is for the same channel and initiator and carries the same
      info, credentials, time zone, session and cookie, with the flags OR-ed in. */
  lemma PatchOnlyAddsFlags(c: Codecs, frame: Frame)
    requires RoundTrips(c) && Patch(c, frame).Some?
    ensures var patched := Patch(c, frame).value;
            && Faithful(c, frame).Some? && Faithful(c, patched).Some?
            && var info, info' := Faithful(c, frame).value, Faithful(c, patched).value;
            && var q, q' := c.decodeRequest(frame).value, c.decodeRequest(patched).value;
            && q'.initiator == q.initiator && q'.channel == q.channel
            && info'.optional.flags.Some?
            && info'.optional.flags.value == Current(info.optional) | FORCED
            && info'.(optional := info'.optional.(flags := info.optional.flags)) == info
  {
    var info := Faithful(c, frame).value;
    var info' := info.(optional := Forced(info.optional));
    assert InOrder(info'.optional);
    var q' := c.decodeRequest(frame).value.(userData := c.encodeInfo(info').value);
    assert Patch(c, frame) == c.encodeRequest(q');
  }

  /** In particular every client that sends time zone and session id, whatever flags,
      is patched, if its frame was made by codecs that round-trip. */
  lemma ClientIsPatched(c: Codecs, q: SendDataRequest, i: ClientInfo, frame: Frame, bytes: seq<Byte>, g: Frame)
    requires RoundTrips(c) && InOrder(i.optional) && i.optional.sessionId.Some?
    requires c.encodeInfo(i) == Some(q.userData) && c.encodeRequest(q) == Some(frame)
    requires c.encodeInfo(i.(optional := i.optional.(flags := Some(Current(i.optional) | 0xF)))) == Some(bytes)
    requires c.encodeRequest(q.(userData := bytes)) == Some(g)
    ensures Patch(c, frame) == Some(g)
  {
    assert Replaces(c, frame, g, q, i, bytes);
    PatchExactly(c, frame, g);
  }

  /** No flag the client asked for is lost and every forced one is there. */
  lemma ForcedKeepsFlags(flags: bv32)
    ensures (flags | FORCED) & flags == flags && (flags | FORCED) & FORCED == FORCED
    ensures (flags | FORCED) | FORCED == flags | FORCED
  {
  }

  lemma ForcedIsIdempotent(o: OptionalInfo)
    ensures Forced(Forced(o)) == Forced(o)
  {
    ForcedKeepsFlags(Current(o));
  }

  /** A canonical frame whose info forcing leaves alone is its own replacement. */
  lemma PatchFixedPoint(c: Codecs, frame: Frame, info: ClientInfo)
    requires Faithful(c, frame) == Some(info) && Forced(info.optional) == info.optional
    requires info.optional.timezone.Some? && info.optional.sessionId.Some?
    ensures Patch(c, frame) == c.encodeRequest(c.decodeRequest(frame).value)
  {
    assert info.(optional := Forced(info.optional)) == info;
  }

  lemma PatchIsIdempotent(c: Codecs, frame: Frame)
    requires RoundTrips(c) && Patch(c, frame).Some?
    ensures Patch(c, Patch(c, frame).value) == Patch(c, frame)
  {
    var info := Faithful(c, frame).value;
    var info' := info.(optional := Forced(info.optional));
    var q' := c.decodeRequest(frame).value.(userData := c.encodeInfo(info').value);
    var patched := Patch(c, frame).value;
    assert InOrder(info'.optional);
    assert c.decodeRequest(patched) == Some(q') && Faithful(c, patched) == Some(info');
    ForcedIsIdempotent(info.optional);
    PatchFixedPoint(c, patched, info');
  }

  /** The bytes of a frame that stand before its user data. */
  function Around(f: Frame, data: seq<Byte>): Frame {
    if |data| <= |f| then f[..|f| - |data|] else []
  }

  /** A request is its header followed by the user data. */
  predicate DataIsLast(c: Codecs, f: Frame) {
    c.decodeRequest(f).Some? ==>
      var data := c.decodeRequest(f).value.userData;
      |data| <= |f| && f == Around(f, data) + data
  }

  /** The header depends on the ids and the length of the data, not on the data. */
  predicate HeaderIgnores(c: Codecs, q: SendDataRequest, data: seq<Byte>) {
    |data| == |q.userData| ==>
      match c.encodeRequest(q)
      case None => c.encodeRequest(q.(userData := data)).None?
      case Some(f) => c.encodeRequest(q.(userData := data)) == Some(Around(f, q.userData) + data)
  }

  ghost predicate HeaderFramed(c: Codecs) {
    && (forall f :: DataIsLast(c, f))
    && (forall q, data :: HeaderIgnores(c, q, data))
  }

  /** For every frame that is patched without the info changing its length: the bytes
      around the info are kept exactly when the request re-encodes to the frame. The
      info is checked for that, the request around it is not. */
  lemma PatchKeepsRequestExactly(c: Codecs, frame: Frame)
    requires HeaderFramed(c) && Patch(c, frame).Some?
    requires |ForcedInfo(c, frame).value| == |c.decodeRequest(frame).value.userData|
    ensures var q, bytes := c.decodeRequest(frame).value, ForcedInfo(c, frame).value;
            && Patch(c, frame) == Some(Around(Patch(c, frame).value, bytes) + bytes)
            && (Around(Patch(c, frame).value, bytes) == Around(frame, q.userData) <==> c.encodeRequest(q) == Some(frame))
  {
    var q, bytes := c.decodeRequest(frame).value, ForcedInfo(c, frame).value;
    var q', patched := q.(userData := bytes), Patch(c, frame).value;
    assert HeaderIgnores(c, q', bytes) && HeaderIgnores(c, q', q.userData) && DataIsLast(c, frame);
    assert q'.(userData := q.userData) == q;
    var a, b := Around(patched, bytes), Around(frame, q.userData);
    assert c.encodeRequest(q) == Some(a + q.userData) && frame == b + q.userData;
    if a + q.userData == frame {
      assert a == (a + q.userData)[..|frame| - |q.userData|] == b;
    }
  }

  const FORCED_INFO := ClientInfo([], OptionalInfo(Some([]), Some(0), Some(FORCED), None))

  /** Codecs that know one info, and whose request has a leading byte that decoding
      ignores and encoding writes as zero. */
  const TINY := Codecs(
    (f: Frame) => if f == [] then None else Some(SendDataRequest(0, 0, f[1..])),
    (q: SendDataRequest) => if q.initiator == 0 && q.channel == 0 then Some([0] + q.userData) else None,
    (b: seq<Byte>) => if b == [1] then Some(FORCED_INFO) else None,
    (i: ClientInfo) => if i == FORCED_INFO then Some([1]) else None)

  /** So the patch can change a byte that has nothing to do with the flags. */
  lemma RequestIsNotChecked()
    ensures RoundTrips(TINY) && HeaderFramed(TINY)
    ensures Faithful(TINY, [5, 1]) == Some(FORCED_INFO) && Patch(TINY, [5, 1]) == Some([0, 1])
  {
    forall q: SendDataRequest | TINY.encodeRequest(q).Some?
      ensures TINY.decodeRequest(TINY.encodeRequest(q).value) == Some(q) {
      assert ([0] + q.userData)[1..] == q.userData;
    }
    forall f ensures DataIsLast(TINY, f) {
      assert f != [] ==> f[..1] + f[1..] == f;
    }
    forall q, data ensures HeaderIgnores(TINY, q, data) {
      assert ([0] + q.userData)[..1] == [0];
    }
    assert [5, 1][1..] == [1];
    ForcedKeepsFlags(FORCED);
    OrOfSubset(FORCED);
    PatchFixedPoint(TINY, [5, 1], FORCED_INFO);
    var zero: seq<Byte>, one: seq<Byte> := [0], [1];
    assert zero + one == [0, 1];
    assert TINY.encodeRequest(SendDataRequest(0, 0, one)) == Some(zero + one);
  }

  lemma OrOfSubset(flags: bv32)
    requires flags & FORCED == FORCED
    ensures flags | FORCED == flags
  {
  }

  // ---- the relay loop -------------------------------------------------------

  const MAX_CLIENT_PDUS_BEFORE_INFO := 32

  /** What the loop's `select` yields: a PDU from either side, and whether writing it
      on succeeds; or a read error. */
  datatype Event = FromServer(frame: Frame, written: bool) | FromClient(frame: Frame, written: bool) | ReadError

  datatype Outcome = Patched | GaveUp | Failed | StillReading

  datatype Relay = Relay(outcome: Outcome, used: nat, toClient: seq<Frame>, toServer: seq<Frame>)

  /** The PDUs of each side that were passed on. */
  function ServerFrames(events: seq<Event>): seq<Frame> {
    if events == [] then []
    else
      var last := events[|events| - 1];
      ServerFrames(events[..|events| - 1]) + if last.FromServer? && last.written then [last.frame] else []
  }

  function ClientFrames(events: seq<Event>): seq<Frame> {
    if events == [] then []
    else
      var last := events[|events| - 1];
      ClientFrames(events[..|events| - 1]) + if last.FromClient? && last.written then [last.frame] else []
  }

  /** How the loop ends with the last of these events, if it does. */
  function End(c: Codecs, events: seq<Event>): Outcome {
    if events == [] then StillReading
    else
      var last := events[|events| - 1];
      if last.ReadError? || !last.written then Failed
      else if last.FromServer? then StillReading
      else if Patch(c, last.frame).Some? then Patched
      else if |ClientFrames(events)| > MAX_CLIENT_PDUS_BEFORE_INFO then GaveUp
      else StillReading
  }

  /** What a relay of these events promises. */
  ghost predicate Relays(c: Codecs, events: seq<Event>, r: Relay) {
    && r.used <= |events|
    && var seen := events[..r.used];
    // it ends at the first event that ends it
    && r.outcome == End(c, seen)
    && (forall k | 0 <= k < r.used :: End(c, events[..k]).StillReading?)
    && (r.outcome.StillReading? ==> r.used == |events|)
    // the client gets what the server sent
    && r.toClient == ServerFrames(seen)
    // the server gets what the client sent, but for the last one when it was patched
    && var sent := ClientFrames(seen);
    && if r.outcome.Patched?
       then sent != [] && Patch(c, sent[|sent| - 1]).Some? && r.toServer == sent[|sent| - 1 := Patch(c, sent[|sent| - 1]).value]
       else r.toServer == sent
  }

  /** What one more event adds. */
  lemma OneMoreEvent(c: Codecs, events: seq<Event>, i: nat)
    requires i < |events|
    ensures var event, seen, more := events[i], events[..i], events[..i + 1];
            && ServerFrames(more) == ServerFrames(seen) + (if event.FromServer? && event.written then [event.frame] else [])
            && ClientFrames(more) == ClientFrames(seen) + (if event.FromClient? && event.written then [event.frame] else [])
            && End(c, more) == if event.ReadError? || !event.written then Failed
                               else if event.FromServer? then StillReading
                               else if Patch(c, event.frame).Some? then Patched
                               else if |ClientFrames(more)| > MAX_CLIENT_PDUS_BEFORE_INFO then GaveUp
                               else StillReading
  {
    assert events[..i + 1][..i] == events[..i];
  }

  method Intercept(c: Codecs, events: seq<Event>) returns (r: Relay)
    ensures Relays(c, events, r)
  {
    var toClient, toServer: seq<Frame>, seen := [], [], 0;
    for i := 0 to |events|
      invariant forall k | 0 <= k <= i :: End(c, events[..k]).StillReading?
      invariant toClient == ServerFrames(events[..i]) && toServer == ClientFrames(events[..i])
      invariant seen == |toServer| <= MAX_CLIENT_PDUS_BEFORE_INFO
    {
      var event := events[i];
      OneMoreEvent(c, events, i);
      if event.ReadError? || !event.written {
        return Relay(Failed, i + 1, toClient, toServer);
      }
      if event.FromServer? {
        toClient := toClient + [event.frame];
      } else {
        match Patch(c, event.frame) {
          case Some(patched) =>
            return Relay(Patched, i + 1, toClient, toServer + [patched]);
          case None =>
        }
        toServer := toServer + [event.frame];
        seen := seen + 1;
        if seen > MAX_CLIENT_PDUS_BEFORE_INFO {
          return Relay(GaveUp, i + 1, toClient, toServer);
        }
      }
    }
    assert events[..|events|] == events;
    return Relay(StillReading, |events|, toClient, toServer);
  }

  /** Those promises leave no choice. */
  lemma RelaysIsExact(c: Codecs, events: seq<Event>, r: Relay, r': Relay)
    requires Relays(c, events, r) && Relays(c, events, r')
    ensures r == r'
  {
  }

  /** No PDU before the end was one to patch. */
  lemma {:induction false} UnpatchedBefore(c: Codecs, events: seq<Event>, n: nat)
    requires n <= |events|
    requires forall k | 0 <= k <= n :: End(c, events[..k]).StillReading?
    ensures forall f | f in ClientFrames(events[..n]) :: Patch(c, f).None?
    ensures |ClientFrames(events[..n])| <= MAX_CLIENT_PDUS_BEFORE_INFO
  {
    if n > 0 {
      UnpatchedBefore(c, events, n - 1);
      assert events[..n][..n - 1] == events[..n - 1];
      assert End(c, events[..n]).StillReading?;
    }
  }

  /** The loop patches the first client PDU that can be patched if that is among the
      first 33, and otherwise gives up having passed on 33 PDUs as they were. */
  lemma GivesUpAfter33(c: Codecs, events: seq<Event>, r: Relay)
    requires Relays(c, events, r)
    ensures |r.toServer| <= 33
    ensures r.outcome.GaveUp? <==> |r.toServer| == 33 && !r.outcome.Patched?
    ensures var sent := ClientFrames(events[..r.used]);
            forall i | 0 <= i < |sent| :: Patch(c, sent[i]).Some? <==> r.outcome.Patched? && i == |sent| - 1
  {
    if r.used > 0 {
      UnpatchedBefore(c, events, r.used - 1);
      assert events[..r.used][..r.used - 1] == events[..r.used - 1];
      var before := ClientFrames(events[..r.used - 1]);
      assert forall i | 0 <= i < |before| :: before[i] in before;
    }
  }
}
