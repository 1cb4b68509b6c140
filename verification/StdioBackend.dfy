/** The client-hosted stdio backend (agent/controller/mcpstdio.go).

    Any number of goroutines run Send, Close, Start and the recv loop's reply
    handler against one backend, and the gateway's pump drains `recv`. A step is
    acquiring a lock, the body of one locked section together with its release,
    a channel operation or a transport send. Sending on a closed channel, or
    closing one twice, sets `panicked`. */
module StdioBackend {
  import opened Prelude

  const RECV_BUFFER := 64

  /** A reply carrying a request id. */
  datatype Ack = Ack(req: nat, failed: bool)

  type Msg = seq<Byte>

  datatype Wire = Request(req: nat) | CloseBackend

  /** A cap-1 ack channel. */
  datatype Chan = Chan(buf: seq<Ack>, open: bool)

  datatype Result = Delivered | NotDelivered

  datatype Pc =
    // Send
    | Encode(req: nat)
    | WantSend(req: nat)
    | WantMu(req: nat)                   // holds sendMu
    | InMu(req: nat)                     // holds sendMu and mu
    | Write(req: nat)                    // holds sendMu
    | EndWrite(req: nat, written: bool)  // holds sendMu
    | Wait(req: nat)
    | WantForget(req: nat, result: Result)
    | Forget(req: nat, result: Result)   // holds mu
    | Sent(req: nat, result: Result)
    // Close
    | CloseWantSend
    | CloseWantMu                        // holds sendMu
    | CloseInMu                          // holds sendMu and mu
    | Notify(todo: set<nat>, started: bool)  // holds sendMu, as do the next three
    | Unregister
    | WriteClose
    | EndClose
    // Start
    | StartWantMu
    | StartInMu                          // holds mu
    | StartStore
    // processMCPStdioReply
    | DeliverWantMu(msg: Msg)
    | DeliverInMu(msg: Msg)              // holds mu
    | AckWantMu(ack: Ack)
    | AckInMu(ack: Ack)                  // holds mu
    // Close, Start or a reply has returned
    | Returned

  datatype Locks = Locks(sendMu: Option<nat>, mu: Option<nat>)

  datatype Life = Life(
    closed: bool,
    started: bool,
    recvOpen: bool,
    doneOpen: bool,
    registered: bool,    // in the agent's backend registry
    // history
    unregistered: bool)  // Close removed the backend from the registry

  /** The requests in flight. A Send's ack channel is named by its request id. */
  datatype Reqs = Reqs(
    last: nat,
    waiters: set<nat>,
    acks: map<nat, Chan>,
    // history
    owner: map<nat, nat>,         // which goroutine's Send uses an id
    arrived: map<nat, seq<Ack>>)  // acks that came while the id was a waiter

  /** The server's own messages on their way to the gateway's pump. */
  datatype Feed = Feed(
    recv: seq<Msg>,
    dropped: nat,
    // history
    accepted: seq<Msg>,
    consumed: seq<Msg>,
    offered: nat)        // messages delivered while open

  /** What the goroutines share. */
  datatype Mem = Mem(locks: Locks, life: Life, reqs: Reqs, feed: Feed, wire: seq<Wire>, panicked: bool)

  datatype State = State(threads: map<nat, Pc>, mem: Mem)

  const START := State(map[], Mem(Locks(None, None), Life(false, false, true, true, false, false),
                                  Reqs(0, {}, map[], map[], map[]), Feed([], 0, [], [], 0), [], false))

  datatype Op = Send | Close | Start | Deliver(msg: Msg) | Acknowledge(ack: Ack)

  /** How a step with several outcomes turns out. */
  datatype Choice = Ok | Fail | TakeAck | ContextDone | BackendDone | Pick(req: nat)

  datatype Step = Begin(t: nat, op: Op) | Act(t: nat, choice: Choice) | Pump

  predicate HoldsSend(pc: Pc) {
    pc.WantMu? || pc.InMu? || pc.Write? || pc.EndWrite?
    || pc.CloseWantMu? || pc.CloseInMu? || pc.Notify? || pc.Unregister? || pc.WriteClose? || pc.EndClose?
  }

  predicate HoldsMu(pc: Pc) {
    pc.InMu? || pc.Forget? || pc.CloseInMu? || pc.StartInMu? || pc.DeliverInMu? || pc.AckInMu?
  }

  predicate WantsSend(pc: Pc) {
    pc.WantSend? || pc.CloseWantSend?
  }

  predicate WantsMu(pc: Pc) {
    pc.WantMu? || pc.WantForget? || pc.CloseWantMu? || pc.StartWantMu? || pc.DeliverWantMu? || pc.AckWantMu?
  }

  predicate CanAct(m: Mem, pc: Pc, choice: Choice) {
    if WantsSend(pc) then m.locks.sendMu == None
    else if WantsMu(pc) then m.locks.mu == None
    else match pc
      case Wait(req) =>
        req in m.reqs.acks &&
        (match choice
         case TakeAck => m.reqs.acks[req].buf != [] || !m.reqs.acks[req].open
         case ContextDone => true
         case BackendDone => !m.life.doneOpen
         case _ => false)
      case Notify(todo, _) => if todo == {} then true else choice.Pick? && choice.req in todo
      case Sent(_, _) => false
      case Returned => false
      case _ => true
  }

  ghost predicate Enabled(s: State, step: Step) {
    match step
    case Begin(t, op) => t !in s.threads && (op.Deliver? || op.Acknowledge? ==> s.mem.life.registered)
    case Act(t, choice) => t in s.threads && CanAct(s.mem, s.threads[t], choice)
    case Pump => s.mem.feed.recv != []
  }

  /** A send on, or a close of, a channel panics unless it is open. */
  function Using(open: bool, m: Mem): Mem {
    if open then m else m.(panicked := true)
  }

  function Lock(t: nat, pc: Pc, l: Locks): (Pc, Locks) {
    match pc
    case WantSend(req) => (WantMu(req), l.(sendMu := Some(t)))
    case CloseWantSend => (CloseWantMu, l.(sendMu := Some(t)))
    case WantMu(req) => (InMu(req), l.(mu := Some(t)))
    case WantForget(req, r) => (Forget(req, r), l.(mu := Some(t)))
    case CloseWantMu => (CloseInMu, l.(mu := Some(t)))
    case StartWantMu => (StartInMu, l.(mu := Some(t)))
    case DeliverWantMu(msg) => (DeliverInMu(msg), l.(mu := Some(t)))
    case AckWantMu(a) => (AckInMu(a), l.(mu := Some(t)))
    case _ => (pc, l)
  }

  function Offer(f: Feed, msg: Msg): Feed {
    if |f.recv| < RECV_BUFFER
    then f.(recv := f.recv + [msg], accepted := f.accepted + [msg], offered := f.offered + 1)
    else f.(dropped := f.dropped + 1, offered := f.offered + 1)
  }

  /** An ack for a waiter: it fits in the cap-1 channel or is dropped. */
  function PutAck(q: Reqs, a: Ack): Reqs
    requires a.req in q.acks
  {
    var ch := q.acks[a.req];
    q.(arrived := q.arrived[a.req := GetOr(q.arrived, a.req, []) + [a]],
       acks := if |ch.buf| < 1 then q.acks[a.req := ch.(buf := ch.buf + [a])] else q.acks)
  }

  function PopAck(q: Reqs, req: nat): Reqs
    requires req in q.acks && q.acks[req].buf != []
  {
    q.(acks := q.acks[req := q.acks[req].(buf := q.acks[req].buf[1..])])
  }

  function Shut(q: Reqs, req: nat): Reqs
    requires req in q.acks
  {
    q.(acks := q.acks[req := q.acks[req].(open := false)])
  }

  /** The locked sections of `mu`. */
  function Locked(pc: Pc, m: Mem): (Pc, Mem) {
    var m := m.(locks := m.locks.(mu := None));
    match pc
    case InMu(req) =>
      if m.life.closed then (EndWrite(req, false), m)
      else (Write(req), m.(reqs := m.reqs.(waiters := m.reqs.waiters + {req}, arrived := m.reqs.arrived[req := []])))
    case Forget(req, r) => (Sent(req, r), m.(reqs := m.reqs.(waiters := m.reqs.waiters - {req})))
    case CloseInMu =>
      if m.life.closed then (EndClose, m)
      else (Notify(m.reqs.waiters, m.life.started),
            Using(m.life.recvOpen && m.life.doneOpen,
                  m.(life := m.life.(closed := true, recvOpen := false, doneOpen := false),
                     reqs := m.reqs.(waiters := {}))))
    case StartInMu => if m.life.closed then (Returned, m) else (StartStore, m.(life := m.life.(started := true)))
    case DeliverInMu(msg) =>
      (Returned, if m.life.closed then m else Using(m.life.recvOpen, m.(feed := Offer(m.feed, msg))))
    case AckInMu(a) =>
      (Returned, if a.req in m.reqs.waiters && a.req in m.reqs.acks
                 then Using(m.reqs.acks[a.req].open, m.(reqs := PutAck(m.reqs, a))) else m)
    case _ => (pc, m)
  }

  /** Everything else. */
  function Other(pc: Pc, m: Mem, choice: Choice): (Pc, Mem) {
    match pc
    case Encode(req) => (if choice.Fail? then WantForget(req, NotDelivered) else WantSend(req), m)
    case Write(req) =>
      if choice.Fail? then (EndWrite(req, false), m)
      else (EndWrite(req, true), m.(wire := m.wire + [Request(req)]))
    case EndWrite(req, written) =>
      (if written then Wait(req) else WantForget(req, NotDelivered), m.(locks := m.locks.(sendMu := None)))
    case Wait(req) =>
      if choice.TakeAck? && req in m.reqs.acks && m.reqs.acks[req].buf != [] then
        (WantForget(req, if m.reqs.acks[req].buf[0].failed then NotDelivered else Delivered),
         m.(reqs := PopAck(m.reqs, req)))
      else (WantForget(req, NotDelivered), m)
    case Notify(todo, started) =>
      if choice.Pick? && choice.req in todo && choice.req in m.reqs.acks then
        (Notify(todo - {choice.req}, started),
         Using(m.reqs.acks[choice.req].open, m.(reqs := Shut(m.reqs, choice.req))))
      else (if started then Unregister else EndClose, m)
    case Unregister => (WriteClose, m.(life := m.life.(registered := false, unregistered := true)))
    case WriteClose => (EndClose, if choice.Fail? then m else m.(wire := m.wire + [CloseBackend]))
    case EndClose => (Returned, m.(locks := m.locks.(sendMu := None)))
    case StartStore => (Returned, m.(life := m.life.(registered := true)))
    case _ => (pc, m)
  }

  function Move(t: nat, pc: Pc, m: Mem, choice: Choice): (Pc, Mem) {
    if WantsSend(pc) || WantsMu(pc) then var (pc', l) := Lock(t, pc, m.locks); (pc', m.(locks := l))
    else if HoldsMu(pc) then Locked(pc, m)
    else Other(pc, m, choice)
  }

  function Launch(t: nat, op: Op, m: Mem): (Pc, Mem) {
    match op
    case Send =>
      var q, req := m.reqs, m.reqs.last + 1;
      (Encode(req), m.(reqs := q.(last := req, acks := q.acks[req := Chan([], true)], owner := q.owner[req := t])))
    case Close => (CloseWantSend, m)
    case Start => (StartWantMu, m)
    case Deliver(msg) => (DeliverWantMu(msg), m)
    case Acknowledge(a) => (AckWantMu(a), m)
  }

  ghost function Apply(s: State, step: Step): State {
    if !Enabled(s, step) then s else
    match step
    case Begin(t, op) => var (pc, m) := Launch(t, op, s.mem); State(s.threads[t := pc], m)
    case Act(t, choice) => var (pc, m) := Move(t, s.threads[t], s.mem, choice); State(s.threads[t := pc], m)
    case Pump =>
      var f := s.mem.feed;
      s.(mem := s.mem.(feed := f.(recv := f.recv[1..], consumed := f.consumed + [f.recv[0]])))
  }

  ghost function After(steps: seq<Step>): State {
    if steps == [] then START
    else Apply(After(steps[..|steps| - 1]), steps[|steps| - 1])
  }

  // ---- the invariant --------------------------------------------------------

  /** Nothing follows the close on the wire, so there is at most one. */
  ghost predicate CloseIsLast(wire: seq<Wire>) {
    forall i :: 0 <= i < |wire| && wire[i].CloseBackend? ==> i == |wire| - 1
  }

  ghost predicate NoClose(wire: seq<Wire>) {
    forall i :: 0 <= i < |wire| ==> wire[i].Request?
  }

  ghost predicate WireOk(wire: seq<Wire>, closed: bool) {
    CloseIsLast(wire) && (!closed ==> NoClose(wire))
  }

  predicate LifeOk(l: Life) {
    && l.recvOpen == !l.closed && l.doneOpen == !l.closed
    && (l.unregistered ==> l.closed && l.started)
    && (l.registered ==> l.started)
  }

  /** Every waiter's channel is open. */
  ghost predicate ReqsOk(q: Reqs, closed: bool) {
    && (closed ==> q.waiters == {})
    && (forall r :: r in q.waiters ==> r in q.arrived && r in q.acks && q.acks[r].open)
    && (forall r :: r in q.arrived ==> r in q.acks)
    && (forall r :: r in q.acks ==> r <= q.last && r in q.owner)
    && (forall r, i :: r in q.arrived && 0 <= i < |q.arrived[r]| ==> q.arrived[r][i].req == r)
  }

  ghost predicate FeedOk(f: Feed) {
    && f.consumed + f.recv == f.accepted && |f.recv| <= RECV_BUFFER
    && f.offered == |f.accepted| + f.dropped
  }

  ghost predicate MemOk(m: Mem) {
    !m.panicked && LifeOk(m.life) && ReqsOk(m.reqs, m.life.closed) && FeedOk(m.feed) && WireOk(m.wire, m.life.closed)
  }

  predicate OfSend(pc: Pc) {
    Unwritten(pc) || pc.Write? || pc.EndWrite? || pc.Wait? || Settled(pc)
  }

  predicate Unwritten(pc: Pc) {
    pc.Encode? || pc.WantSend? || pc.WantMu? || pc.InMu?
  }

  predicate Settled(pc: Pc) {
    pc.WantForget? || pc.Forget? || pc.Sent?
  }

  /** The channel holds the first ack that arrived, and nothing else. */
  ghost predicate FirstHeld(q: Reqs, req: nat) {
    && req in q.arrived && req in q.acks
    && q.acks[req].buf == if q.arrived[req] == [] then [] else [q.arrived[req][0]]
  }

  ghost predicate LocksAgree(t: nat, pc: Pc, l: Locks) {
    (HoldsSend(pc) <==> l.sendMu == Some(t)) && (HoldsMu(pc) <==> l.mu == Some(t))
  }

  ghost predicate ReqsAgree(t: nat, pc: Pc, q: Reqs) {
    && (OfSend(pc) ==> pc.req in q.acks && pc.req in q.owner && q.owner[pc.req] == t)
    && (Unwritten(pc) ==> pc.req !in q.arrived && q.acks[pc.req] == Chan([], true))
    && (pc.Write? || pc.Wait? || (pc.EndWrite? && pc.written) ==> FirstHeld(q, pc.req))
    && (Settled(pc) && pc.result.Delivered? ==>
          pc.req in q.arrived && q.arrived[pc.req] != [] && !q.arrived[pc.req][0].failed)
    && (pc.Notify? ==> forall r :: r in pc.todo ==> r in q.arrived && r in q.acks && q.acks[r].open)
  }

  ghost predicate LifeAgrees(pc: Pc, l: Life, wire: seq<Wire>) {
    && (pc.Write? ==> !l.closed)
    && (pc.Notify? || pc.Unregister? || pc.WriteClose? ==> l.closed && NoClose(wire))
    && (pc.Notify? ==> pc.started == l.started)
    && (pc.Notify? || pc.Unregister? ==> !l.unregistered)
    && (pc.StartStore? || pc.Unregister? ==> l.started)
    && (pc.WriteClose? ==> l.unregistered)
  }

  ghost predicate ThreadOk(t: nat, pc: Pc, m: Mem) {
    LocksAgree(t, pc, m.locks) && ReqsAgree(t, pc, m.reqs) && LifeAgrees(pc, m.life, m.wire)
  }

  ghost predicate Inv(s: State) {
    && MemOk(s.mem)
    && (s.mem.locks.sendMu.Some? ==> s.mem.locks.sendMu.value in s.threads)
    && (s.mem.locks.mu.Some? ==> s.mem.locks.mu.value in s.threads)
    // a started backend that is closed but still registered has its Close on the way
    && (Leaving(s.mem.life) ==> s.mem.locks.sendMu.Some? && Removing(s.threads[s.mem.locks.sendMu.value]))
    && (forall t :: t in s.threads ==> ThreadOk(t, s.threads[t], s.mem))
  }

  // ---- each step keeps it ---------------------------------------------------

  ghost predicate LocksGuarantee(t: nat, l: Locks, l': Locks) {
    forall u :: u != t ==> (l.sendMu == Some(u) <==> l'.sendMu == Some(u)) && (l.mu == Some(u) <==> l'.mu == Some(u))
  }

  /** `free` says that no other goroutine holds `sendMu`. */
  predicate LifeGuarantee(l: Life, l': Life, free: bool) {
    && (l.closed ==> l'.closed && l'.started == l.started)
    && (l.started ==> l'.started)
    && (!free ==> l'.closed == l.closed && l'.unregistered == l.unregistered)
  }

  ghost predicate ReqsGuarantee(t: nat, q: Reqs, q': Reqs, free: bool) {
    && (forall r :: r in q.acks && r in q.owner && q.owner[r] != t ==>
          && r in q'.acks && r in q'.owner && q'.owner[r] == q.owner[r]
          && (r in q.arrived <==> r in q'.arrived)
          && (r !in q.arrived ==> q'.acks[r] == q.acks[r])
          && (r in q.arrived ==> q.arrived[r] <= q'.arrived[r])
          && (FirstHeld(q, r) ==> FirstHeld(q', r)))
    && (forall r :: r in q.acks && r in q.arrived ==> r in q'.acks && r in q'.arrived)
    && (!free ==> forall r :: r in q.acks && q.acks[r].open ==> r in q'.acks && q'.acks[r].open)
  }

  /** What any step of `t` guarantees to the other goroutines: while another one
      holds `sendMu` it neither closes the backend, nor touches the wire, nor
      closes a channel, and it never disturbs another Send's request. */
  ghost predicate Guarantee(t: nat, m: Mem, m': Mem) {
    var free := m.locks.sendMu == None || m.locks.sendMu == Some(t);
    && LocksGuarantee(t, m.locks, m'.locks)
    && LifeGuarantee(m.life, m'.life, free)
    && ReqsGuarantee(t, m.reqs, m'.reqs, free)
    && (!free ==> m'.wire == m.wire)
  }

  lemma OtherThread(u: nat, pc: Pc, t: nat, m: Mem, m': Mem)
    requires ThreadOk(u, pc, m) && u != t && Guarantee(t, m, m')
    ensures ThreadOk(u, pc, m')
  {
  }

  /** Ending in `r` keeps what a step of `t` must and guarantees the rest. */
  ghost predicate Good(t: nat, m: Mem, r: (Pc, Mem)) {
    MemOk(r.1) && ThreadOk(t, r.0, r.1) && Guarantee(t, m, r.1)
  }

  lemma PutAckReqs(t: nat, q: Reqs, a: Ack, closed: bool, free: bool)
    requires ReqsOk(q, closed) && a.req in q.waiters
    ensures ReqsOk(PutAck(q, a), closed) && ReqsGuarantee(t, q, PutAck(q, a), free)
  {
  }

  lemma PopAckReqs(t: nat, q: Reqs, req: nat, closed: bool, free: bool)
    requires ReqsOk(q, closed) && ReqsAgree(t, Wait(req), q) && q.acks[req].buf != []
    ensures ReqsOk(PopAck(q, req), closed) && ReqsGuarantee(t, q, PopAck(q, req), free)
    ensures ReqsAgree(t, WantForget(req, if q.acks[req].buf[0].failed then NotDelivered else Delivered), PopAck(q, req))
  {
  }

  lemma ShutReqs(t: nat, q: Reqs, req: nat, todo: set<nat>, started: bool)
    requires ReqsOk(q, true) && ReqsAgree(t, Notify(todo, started), q) && req in todo
    ensures ReqsOk(Shut(q, req), true) && ReqsGuarantee(t, q, Shut(q, req), true)
    ensures ReqsAgree(t, Notify(todo - {req}, started), Shut(q, req))
  {
  }

  lemma InMuGood(t: nat, req: nat, m: Mem)
    requires MemOk(m) && ThreadOk(t, InMu(req), m)
    ensures Good(t, m, Locked(InMu(req), m))
  {
  }

  lemma ForgetGood(t: nat, req: nat, r: Result, m: Mem)
    requires MemOk(m) && ThreadOk(t, Forget(req, r), m)
    ensures Good(t, m, Locked(Forget(req, r), m))
  {
  }

  lemma CloseInMuGood(t: nat, m: Mem)
    requires MemOk(m) && ThreadOk(t, CloseInMu, m)
    ensures Good(t, m, Locked(CloseInMu, m))
  {
  }

  lemma StartInMuGood(t: nat, m: Mem)
    requires MemOk(m) && ThreadOk(t, StartInMu, m)
    ensures Good(t, m, Locked(StartInMu, m))
  {
  }

  lemma DeliverInMuGood(t: nat, msg: Msg, m: Mem)
    requires MemOk(m) && ThreadOk(t, DeliverInMu(msg), m)
    ensures Good(t, m, Locked(DeliverInMu(msg), m))
  {
  }

  lemma AckInMuGood(t: nat, a: Ack, m: Mem)
    requires MemOk(m) && ThreadOk(t, AckInMu(a), m)
    ensures Good(t, m, Locked(AckInMu(a), m))
  {
    if a.req in m.reqs.waiters {
      PutAckReqs(t, m.reqs, a, m.life.closed, m.locks.sendMu == None || m.locks.sendMu == Some(t));
    }
  }

  lemma EncodeGood(t: nat, req: nat, m: Mem, choice: Choice)
    requires MemOk(m) && ThreadOk(t, Encode(req), m) && CanAct(m, Encode(req), choice)
    ensures Good(t, m, Other(Encode(req), m, choice))
  {
  }

  lemma WriteGood(t: nat, req: nat, m: Mem, choice: Choice)
    requires MemOk(m) && ThreadOk(t, Write(req), m) && CanAct(m, Write(req), choice)
    ensures Good(t, m, Other(Write(req), m, choice))
  {
  }

  lemma EndWriteGood(t: nat, req: nat, written: bool, m: Mem, choice: Choice)
    requires MemOk(m) && ThreadOk(t, EndWrite(req, written), m) && CanAct(m, EndWrite(req, written), choice)
    ensures Good(t, m, Other(EndWrite(req, written), m, choice))
  {
  }

  lemma WaitGood(t: nat, req: nat, m: Mem, choice: Choice)
    requires MemOk(m) && ThreadOk(t, Wait(req), m) && CanAct(m, Wait(req), choice)
    ensures Good(t, m, Other(Wait(req), m, choice))
  {
    if choice.TakeAck? && m.reqs.acks[req].buf != [] {
      TakeAckGood(t, req, m);
    }
  }

  lemma TakeAckGood(t: nat, req: nat, m: Mem)
    requires MemOk(m) && ThreadOk(t, Wait(req), m) && m.reqs.acks[req].buf != []
    ensures Good(t, m, Other(Wait(req), m, TakeAck))
  {
    PopAckReqs(t, m.reqs, req, m.life.closed, m.locks.sendMu == None || m.locks.sendMu == Some(t));
  }

  lemma NotifyGood(t: nat, todo: set<nat>, started: bool, m: Mem, choice: Choice)
    requires MemOk(m) && ThreadOk(t, Notify(todo, started), m) && CanAct(m, Notify(todo, started), choice)
    ensures Good(t, m, Other(Notify(todo, started), m, choice))
  {
    if choice.Pick? && choice.req in todo {
      ShutReqs(t, m.reqs, choice.req, todo, started);
    }
  }

  lemma UnregisterGood(t: nat, m: Mem, choice: Choice)
    requires MemOk(m) && ThreadOk(t, Unregister, m) && CanAct(m, Unregister, choice)
    ensures Good(t, m, Other(Unregister, m, choice))
  {
  }

  lemma WriteCloseGood(t: nat, m: Mem, choice: Choice)
    requires MemOk(m) && ThreadOk(t, WriteClose, m) && CanAct(m, WriteClose, choice)
    ensures Good(t, m, Other(WriteClose, m, choice))
  {
  }

  lemma EndCloseGood(t: nat, m: Mem, choice: Choice)
    requires MemOk(m) && ThreadOk(t, EndClose, m) && CanAct(m, EndClose, choice)
    ensures Good(t, m, Other(EndClose, m, choice))
  {
  }

  lemma StartStoreGood(t: nat, m: Mem, choice: Choice)
    requires MemOk(m) && ThreadOk(t, StartStore, m) && CanAct(m, StartStore, choice)
    ensures Good(t, m, Other(StartStore, m, choice))
  {
  }

  lemma LockGood(t: nat, pc: Pc, m: Mem, choice: Choice)
    requires MemOk(m) && ThreadOk(t, pc, m) && CanAct(m, pc, choice) && (WantsSend(pc) || WantsMu(pc))
    ensures Good(t, m, Move(t, pc, m, choice))
  {
    LockAgrees(t, pc, m);
  }

  lemma LockAgrees(t: nat, pc: Pc, m: Mem)
    requires ThreadOk(t, pc, m)
    requires (WantsSend(pc) && m.locks.sendMu == None) || (WantsMu(pc) && m.locks.mu == None)
    ensures var (pc', l) := Lock(t, pc, m.locks);
            && ReqsAgree(t, pc', m.reqs) && LifeAgrees(pc', m.life, m.wire)
            && LocksAgree(t, pc', l) && LocksGuarantee(t, m.locks, l)
  {
    LockTakes(t, pc, m.locks);
  }

  lemma LockTakes(t: nat, pc: Pc, l: Locks)
    requires LocksAgree(t, pc, l)
    requires (WantsSend(pc) && l.sendMu == None) || (WantsMu(pc) && l.mu == None)
    ensures var (pc', l') := Lock(t, pc, l); LocksAgree(t, pc', l') && LocksGuarantee(t, l, l')
  {
  }

  lemma LockedGood(t: nat, pc: Pc, m: Mem)
    requires MemOk(m) && ThreadOk(t, pc, m) && HoldsMu(pc)
    ensures Good(t, m, Locked(pc, m))
  {
    match pc
    case InMu(req) => InMuGood(t, req, m);
    case Forget(req, r) => ForgetGood(t, req, r, m);
    case CloseInMu => CloseInMuGood(t, m);
    case StartInMu => StartInMuGood(t, m);
    case DeliverInMu(msg) => DeliverInMuGood(t, msg, m);
    case AckInMu(a) => AckInMuGood(t, a, m);
  }

  lemma OtherGood(t: nat, pc: Pc, m: Mem, choice: Choice)
    requires MemOk(m) && ThreadOk(t, pc, m) && CanAct(m, pc, choice)
    requires !WantsSend(pc) && !WantsMu(pc) && !HoldsMu(pc)
    ensures Good(t, m, Other(pc, m, choice))
  {
    match pc
    case Encode(req) => EncodeGood(t, req, m, choice);
    case Write(req) => WriteGood(t, req, m, choice);
    case EndWrite(req, written) => EndWriteGood(t, req, written, m, choice);
    case Wait(req) => WaitGood(t, req, m, choice);
    case Notify(todo, started) => NotifyGood(t, todo, started, m, choice);
    case Unregister => UnregisterGood(t, m, choice);
    case WriteClose => WriteCloseGood(t, m, choice);
    case EndClose => EndCloseGood(t, m, choice);
    case StartStore => StartStoreGood(t, m, choice);
  }

  lemma MoveGood(t: nat, pc: Pc, m: Mem, choice: Choice)
    requires MemOk(m) && ThreadOk(t, pc, m) && CanAct(m, pc, choice)
    ensures Good(t, m, Move(t, pc, m, choice))
  {
    if WantsSend(pc) || WantsMu(pc) {
      LockGood(t, pc, m, choice);
    } else if HoldsMu(pc) {
      LockedGood(t, pc, m);
    } else {
      OtherGood(t, pc, m, choice);
    }
  }

  lemma LaunchSend(t: nat, m: Mem)
    requires MemOk(m) && m.locks.sendMu != Some(t) && m.locks.mu != Some(t)
    ensures Good(t, m, Launch(t, Send, m))
  {
  }

  lemma LaunchGood(t: nat, op: Op, m: Mem)
    requires MemOk(m) && m.locks.sendMu != Some(t) && m.locks.mu != Some(t)
    ensures Good(t, m, Launch(t, op, m))
  {
    if op.Send? {
      LaunchSend(t, m);
    }
  }

  /** The backend is closed and a Close still has to take it out of the registry. */
  predicate Leaving(l: Life) {
    l.closed && l.started && !l.unregistered
  }

  predicate Removing(pc: Pc) {
    pc.Notify? || pc.Unregister?
  }

  /** Closing and unregistering happen in one Close, which keeps `sendMu`. */
  ghost predicate OnTheWay(t: nat, m: Mem, r: (Pc, Mem)) {
    Leaving(r.1.life) ==>
      if m.locks.sendMu == Some(t) then r.1.locks.sendMu == Some(t) && Removing(r.0) else Leaving(m.life)
  }

  lemma OnTheWayLocked(t: nat, pc: Pc, m: Mem)
    requires LocksAgree(t, pc, m.locks) && HoldsMu(pc)
    requires Leaving(m.life) && m.locks.sendMu == Some(t) ==> Removing(pc)
    ensures OnTheWay(t, m, Locked(pc, m))
  {
  }

  lemma OnTheWayOther(t: nat, pc: Pc, m: Mem, choice: Choice)
    requires LocksAgree(t, pc, m.locks) && LifeAgrees(pc, m.life, m.wire) && CanAct(m, pc, choice) && !HoldsMu(pc)
    requires Leaving(m.life) && m.locks.sendMu == Some(t) ==> Removing(pc)
    ensures OnTheWay(t, m, Other(pc, m, choice))
  {
  }

  lemma OnTheWayMove(t: nat, pc: Pc, m: Mem, choice: Choice)
    requires LocksAgree(t, pc, m.locks) && LifeAgrees(pc, m.life, m.wire) && CanAct(m, pc, choice)
    requires Leaving(m.life) && m.locks.sendMu == Some(t) ==> Removing(pc)
    ensures OnTheWay(t, m, Move(t, pc, m, choice))
  {
    if HoldsMu(pc) {
      OnTheWayLocked(t, pc, m);
    } else if !WantsSend(pc) && !WantsMu(pc) {
      OnTheWayOther(t, pc, m, choice);
    }
  }

  lemma ActKeeps(s: State, t: nat, choice: Choice)
    requires Inv(s) && Enabled(s, Act(t, choice))
    ensures Inv(Apply(s, Act(t, choice)))
  {
    var pc := s.threads[t];
    var (pc', m') := Move(t, pc, s.mem, choice);
    MoveGood(t, pc, s.mem, choice);
    OnTheWayMove(t, pc, s.mem, choice);
    forall u | u in s.threads && u != t ensures ThreadOk(u, s.threads[u], m') {
      OtherThread(u, s.threads[u], t, s.mem, m');
    }
  }

  lemma BeginKeeps(s: State, t: nat, op: Op)
    requires Inv(s) && Enabled(s, Begin(t, op))
    ensures Inv(Apply(s, Begin(t, op)))
  {
    var (pc', m') := Launch(t, op, s.mem);
    LaunchGood(t, op, s.mem);
    forall u | u in s.threads && u != t ensures ThreadOk(u, s.threads[u], m') {
      OtherThread(u, s.threads[u], t, s.mem, m');
    }
  }

  lemma {:induction false} InvAlways(steps: seq<Step>)
    ensures Inv(After(steps))
  {
    if steps != [] {
      InvAlways(steps[..|steps| - 1]);
      var s := After(steps[..|steps| - 1]);
      if Enabled(s, steps[|steps| - 1]) {
        match steps[|steps| - 1]
        case Begin(t, op) => BeginKeeps(s, t, op);
        case Act(t, choice) => ActKeeps(s, t, choice);
        case Pump => assert s.mem.feed.recv == [s.mem.feed.recv[0]] + s.mem.feed.recv[1..];
      }
    }
  }

  // ---- what it gives --------------------------------------------------------

  /** Whatever runs concurrently, the wire carries at most one MCPStdioClose and
      nothing after it. */
  lemma {:induction false} NothingFollowsClose(steps: seq<Step>)
    ensures CloseIsLast(After(steps).mem.wire)
  {
    InvAlways(steps);
  }

  /** No step ever sends on a closed channel or closes one twice: the channels of
      all waiters are open, and `recv` and `done` are open exactly until Close. */
  lemma {:induction false} NeverPanics(steps: seq<Step>)
    ensures var m := After(steps).mem;
            && !m.panicked
            && m.life.recvOpen == m.life.doneOpen == !m.life.closed
            && forall r :: r in m.reqs.waiters ==> r in m.reqs.acks && m.reqs.acks[r].open
  {
    InvAlways(steps);
  }

  /** Send succeeds only on an error-free ack that carries its own request id and
      arrived after its waiter was registered: the first such ack. */
  lemma {:induction false} SuccessMeansAcked(steps: seq<Step>, t: nat)
    requires t in After(steps).threads && After(steps).threads[t].Sent?
    requires After(steps).threads[t].result.Delivered?
    ensures var q, req := After(steps).mem.reqs, After(steps).threads[t].req;
            req in q.arrived && q.arrived[req] != [] && q.arrived[req][0] == Ack(req, false)
  {
    InvAlways(steps);
    assert ThreadOk(t, After(steps).threads[t], After(steps).mem);
  }

  /** The first ack arriving for a Send that waits is never lost: the Send can
      take it, even if the backend has been closed since, and its outcome is then
      what that ack says. */
  lemma {:induction false} FirstAckIsKept(steps: seq<Step>, t: nat)
    requires t in After(steps).threads && After(steps).threads[t].Wait?
    requires GetOr(After(steps).mem.reqs.arrived, After(steps).threads[t].req, []) != []
    ensures var s := After(steps);
            var req := s.threads[t].req;
            var first := GetOr(s.mem.reqs.arrived, req, [])[0];
            && Enabled(s, Act(t, TakeAck))
            && Apply(s, Act(t, TakeAck)).threads[t] ==
                 WantForget(req, if first.failed then NotDelivered else Delivered)
  {
    InvAlways(steps);
    assert ThreadOk(t, After(steps).threads[t], After(steps).mem);
  }

  /** What the pump consumed followed by the buffer is what was accepted, in
      order; the buffer is bounded; and every message delivered while open was
      accepted or counted as dropped. */
  lemma {:induction false} FeedInOrder(steps: seq<Step>)
    ensures FeedOk(After(steps).mem.feed)
  {
    InvAlways(steps);
  }

  // ---- progress -------------------------------------------------------------

  /** Steps of goroutines already running, other than the one in `out`, lead from
      `After(steps)` to `s`. */
  ghost predicate Leads(steps: seq<Step>, out: Option<nat>, s: State) {
    exists more :: Without(more, out) && After(steps + more) == s
  }

  predicate Without(more: seq<Step>, out: Option<nat>) {
    forall step :: step in more ==> step.Act? && out != Some(step.t)
  }

  lemma LeadsNowhere(steps: seq<Step>, out: Option<nat>)
    ensures Leads(steps, out, After(steps))
  {
    assert steps + [] == steps;
    assert Without([], out);
  }

  lemma LeadsOn(steps: seq<Step>, out: Option<nat>, s: State, u: nat, choice: Choice) returns (s': State)
    requires Leads(steps, out, s) && Inv(s) && out != Some(u) && Enabled(s, Act(u, choice))
    ensures s' == Apply(s, Act(u, choice)) && Leads(steps, out, s') && Inv(s')
  {
    var more :| Without(more, out) && After(steps + more) == s;
    s' := Apply(s, Act(u, choice));
    assert (steps + (more + [Act(u, choice)]))[..|steps + more|] == steps + more;
    assert Without(more + [Act(u, choice)], out) && After(steps + (more + [Act(u, choice)])) == s';
    ActKeeps(s, u, choice);
  }

  /** Whoever holds `mu` is done with it in one step. */
  lemma LockedReleases(pc: Pc, m: Mem)
    ensures Locked(pc, m).1.locks == m.locks.(mu := None)
  {
  }

  lemma MuIsReleased(steps: seq<Step>, out: Option<nat>, s: State) returns (s': State)
    requires Leads(steps, out, s) && Inv(s) && (s.mem.locks.mu == None || s.mem.locks.mu != out)
    ensures Leads(steps, out, s') && Inv(s') && s'.mem.locks == s.mem.locks.(mu := None)
    ensures forall u :: u in s.threads ==> u in s'.threads && (s.mem.locks.mu != Some(u) ==> s'.threads[u] == s.threads[u])
  {
    s' := s;
    if s.mem.locks.mu.Some? {
      var u := s.mem.locks.mu.value;
      assert ThreadOk(u, s.threads[u], s.mem);
      s' := LeadsOn(steps, out, s, u, Ok);
      LockedReleases(s.threads[u], s.mem);
    }
  }

  /** How far a holder of `sendMu` is from releasing it. */
  function Stage(pc: Pc): nat {
    match pc
    case WantMu(_) => 6
    case CloseWantMu => 6
    case InMu(_) => 5
    case CloseInMu => 5
    case Write(_) => 4
    case Notify(_, _) => 4
    case Unregister => 3
    case WriteClose => 2
    case _ => 1
  }

  function Todo(pc: Pc): set<nat> {
    if pc.Notify? then pc.todo else {}
  }

  /** A step a holder of `sendMu` can take once `mu` is free. */
  ghost function NextChoice(pc: Pc): Choice {
    if pc.Notify? && pc.todo != {} then var r :| r in pc.todo; Pick(r) else Ok
  }

  /** From `pc` to `pc'` a holder of `sendMu` released it or came closer to that. */
  predicate Closer(u: nat, pc: Pc, pc': Pc, sendMu: Option<nat>) {
    || sendMu == None
    || (sendMu == Some(u) && (Stage(pc') < Stage(pc) || (Stage(pc') == Stage(pc) && Todo(pc') < Todo(pc))))
  }

  lemma HolderLocked(u: nat, m: Mem, pc: Pc)
    requires LocksAgree(u, pc, m.locks) && HoldsSend(pc) && HoldsMu(pc)
    ensures var (pc', m') := Locked(pc, m); Closer(u, pc, pc', m'.locks.sendMu)
  {
  }

  lemma HolderMoves(u: nat, m: Mem, pc: Pc)
    requires MemOk(m) && ThreadOk(u, pc, m) && HoldsSend(pc) && (m.locks.mu == None || m.locks.mu == Some(u))
    ensures CanAct(m, pc, NextChoice(pc))
    ensures var (pc', m') := Move(u, pc, m, NextChoice(pc)); Closer(u, pc, pc', m'.locks.sendMu)
  {
    if HoldsMu(pc) {
      HolderLocked(u, m, pc);
    }
  }

  /** The holder of `sendMu`, or a goroutine that has returned. */
  function SendHolder(s: State): Pc {
    if s.mem.locks.sendMu.Some? && s.mem.locks.sendMu.value in s.threads then s.threads[s.mem.locks.sendMu.value] else Returned
  }

  lemma SendMuCloser(steps: seq<Step>, out: Option<nat>, s: State, t: nat, u: nat) returns (s': State)
    requires Leads(steps, out, s) && Inv(s) && t in s.threads && WantsSend(s.threads[t]) && s.mem.locks.sendMu == Some(u)
    requires out == None || out == Some(t)
    ensures Leads(steps, out, s') && Inv(s') && t in s'.threads && s'.threads[t] == s.threads[t]
    ensures u in s.threads && u in s'.threads && Closer(u, s.threads[u], s'.threads[u], s'.mem.locks.sendMu)
  {
    s' := s;
    assert ThreadOk(t, s.threads[t], s.mem) && ThreadOk(u, s.threads[u], s.mem);
    if s.mem.locks.mu != Some(u) {
      s' := MuIsReleased(steps, out, s);
      assert ThreadOk(u, s'.threads[u], s'.mem);
    }
    s' := HolderSteps(steps, out, s', u);
  }

  lemma HolderSteps(steps: seq<Step>, out: Option<nat>, s: State, u: nat) returns (s': State)
    requires Leads(steps, out, s) && Inv(s) && s.mem.locks.sendMu == Some(u) && out != Some(u)
    requires s.mem.locks.mu == None || s.mem.locks.mu == Some(u)
    ensures Leads(steps, out, s') && Inv(s') && u in s.threads && u in s'.threads && s'.threads == s.threads[u := s'.threads[u]]
    ensures Closer(u, s.threads[u], s'.threads[u], s'.mem.locks.sendMu)
  {
    assert ThreadOk(u, s.threads[u], s.mem);
    HolderMoves(u, s.mem, s.threads[u]);
    s' := LeadsOn(steps, out, s, u, NextChoice(s.threads[u]));
  }

  lemma SendMuIsReleased(steps: seq<Step>, out: Option<nat>, s: State, t: nat) returns (s': State)
    requires Leads(steps, out, s) && Inv(s) && t in s.threads && WantsSend(s.threads[t])
    requires out == None || out == Some(t)
    ensures Leads(steps, out, s') && Inv(s') && s'.mem.locks.sendMu == None
    ensures t in s'.threads && s'.threads[t] == s.threads[t]
    decreases s.mem.locks.sendMu.Some?, Stage(SendHolder(s)), Todo(SendHolder(s))
  {
    s' := s;
    if s.mem.locks.sendMu.Some? {
      s' := SendMuCloser(steps, out, s, t, s.mem.locks.sendMu.value);
      s' := SendMuIsReleased(steps, out, s', t);
    }
  }

  /** From any state in which `t` waits for a lock, others can let it have it. */
  lemma LockComesFree(steps: seq<Step>, out: Option<nat>, s: State, t: nat) returns (s': State)
    requires Leads(steps, out, s) && Inv(s) && t in s.threads && (WantsSend(s.threads[t]) || WantsMu(s.threads[t]))
    requires out == None || out == Some(t)
    ensures Leads(steps, out, s') && Inv(s') && t in s'.threads && s'.threads[t] == s.threads[t]
    ensures forall choice :: Enabled(s', Act(t, choice))
  {
    assert ThreadOk(t, s.threads[t], s.mem);
    if WantsSend(s.threads[t]) {
      s' := SendMuIsReleased(steps, out, s, t);
    } else {
      s' := MuIsReleased(steps, out, s);
    }
  }

  /** A goroutine waiting for a lock gets it: from every reachable state in which it
      waits, finitely many steps of goroutines already running, and none of its own,
      lead to a state in which it waits there still and can take the lock. */
  lemma {:induction false} LockIsGranted(steps: seq<Step>, t: nat)
    requires t in After(steps).threads && (WantsSend(After(steps).threads[t]) || WantsMu(After(steps).threads[t]))
    ensures exists more :: Without(more, Some(t))
              && t in After(steps + more).threads && After(steps + more).threads[t] == After(steps).threads[t]
              && Enabled(After(steps + more), Act(t, Ok))
  {
    InvAlways(steps);
    LeadsNowhere(steps, Some(t));
    var s' := LockComesFree(steps, Some(t), After(steps), t);
    var more :| Without(more, Some(t)) && After(steps + more) == s';
  }

  /** How many steps of its own a call still has to take, but for Notify's. */
  function Left(pc: Pc): nat {
    match pc
    case Encode(_) => 9
    case WantSend(_) => 8
    case CloseWantSend => 8
    case WantMu(_) => 7
    case CloseWantMu => 7
    case InMu(_) => 6
    case CloseInMu => 6
    case Write(_) => 5
    case Notify(_, _) => 5
    case EndWrite(_, _) => 4
    case Unregister => 4
    case Wait(_) => 3
    case WriteClose => 3
    case WantForget(_, _) => 2
    case EndClose => 2
    case StartWantMu => 3
    case StartInMu => 2
    case StartStore => 1
    case Forget(_, _) => 1
    case DeliverWantMu(_) => 2
    case DeliverInMu(_) => 1
    case AckWantMu(_) => 2
    case AckInMu(_) => 1
    case _ => 0
  }

  predicate Finished(pc: Pc) {
    pc.Sent? || pc.Returned?
  }

  ghost function OwnChoice(pc: Pc): Choice {
    if pc.Wait? then ContextDone else NextChoice(pc)
  }

  predicate Nearer(pc: Pc, pc': Pc) {
    Left(pc') < Left(pc) || (Left(pc') == Left(pc) && Todo(pc') < Todo(pc))
  }

  lemma OwnLocked(pc: Pc, m: Mem)
    requires HoldsMu(pc)
    ensures Nearer(pc, Locked(pc, m).0)
  {
  }

  lemma OwnMove(t: nat, pc: Pc, m: Mem)
    requires ThreadOk(t, pc, m) && !Finished(pc) && CanAct(m, pc, OwnChoice(pc))
    ensures Nearer(pc, Move(t, pc, m, OwnChoice(pc)).0)
  {
    if HoldsMu(pc) {
      OwnLocked(pc, m);
    }
  }

  lemma OwnCanAct(t: nat, pc: Pc, m: Mem)
    requires ThreadOk(t, pc, m) && !Finished(pc) && !WantsSend(pc) && !WantsMu(pc)
    ensures CanAct(m, pc, OwnChoice(pc))
  {
  }

  lemma OwnStep(steps: seq<Step>, s: State, t: nat) returns (s': State)
    requires Leads(steps, None, s) && Inv(s) && t in s.threads && !Finished(s.threads[t])
    requires CanAct(s.mem, s.threads[t], OwnChoice(s.threads[t]))
    ensures Leads(steps, None, s') && Inv(s') && t in s'.threads && Nearer(s.threads[t], s'.threads[t])
  {
    assert ThreadOk(t, s.threads[t], s.mem);
    OwnMove(t, s.threads[t], s.mem);
    s' := LeadsOn(steps, None, s, t, OwnChoice(s.threads[t]));
  }

  lemma CallAdvances(steps: seq<Step>, s: State, t: nat) returns (s': State)
    requires Leads(steps, None, s) && Inv(s) && t in s.threads && !Finished(s.threads[t])
    ensures Leads(steps, None, s') && Inv(s') && t in s'.threads && Nearer(s.threads[t], s'.threads[t])
  {
    s' := s;
    if WantsSend(s.threads[t]) || WantsMu(s.threads[t]) {
      s' := LockComesFree(steps, None, s, t);
      assert Enabled(s', Act(t, OwnChoice(s.threads[t])));
    } else {
      assert ThreadOk(t, s.threads[t], s.mem);
      OwnCanAct(t, s.threads[t], s.mem);
    }
    s' := OwnStep(steps, s', t);
  }

  lemma CallFinishes(steps: seq<Step>, s: State, t: nat) returns (s': State)
    requires Leads(steps, None, s) && Inv(s) && t in s.threads
    ensures Leads(steps, None, s') && t in s'.threads && Finished(s'.threads[t])
    decreases Left(s.threads[t]), Todo(s.threads[t])
  {
    s' := s;
    if !Finished(s.threads[t]) {
      s' := CallAdvances(steps, s, t);
      s' := CallFinishes(steps, s', t);
    }
  }

  /** Every call can return: from every reachable state finitely many steps of the
      goroutines already running bring it to its end. */
  lemma {:induction false} CallCanReturn(steps: seq<Step>, t: nat)
    requires t in After(steps).threads
    ensures exists more :: Without(more, None)
              && t in After(steps + more).threads && Finished(After(steps + more).threads[t])
  {
    InvAlways(steps);
    LeadsNowhere(steps, None);
    var s' := CallFinishes(steps, After(steps), t);
    var more :| Without(more, None) && After(steps + more) == s';
  }

  // ---- the registry ---------------------------------------------------------

  ghost predicate Quiet(s: State) {
    forall t :: t in s.threads ==> s.threads[t].Sent? || s.threads[t].Returned?
  }

  /** Some Start is between its locked section and its store. */
  ghost predicate StartPending(s: State) {
    exists t :: t in s.threads && s.threads[t].StartStore?
  }

  /** The step is a Close taking the backend out of the registry. */
  ghost predicate Removes(s: State, step: Step) {
    step.Act? && Enabled(s, step) && s.threads[step.t].Unregister?
  }

  /** At some point of the run a Close removed the backend while a Start had yet to
      store it. */
  ghost predicate RemovedTooEarly(steps: seq<Step>) {
    steps != [] &&
    var before, last := steps[..|steps| - 1], steps[|steps| - 1];
    RemovedTooEarly(before) || (Removes(After(before), last) && StartPending(After(before)))
  }

  /** In a closed backend only a removal or a pending Start's store changes anything
      about its registration. */
  lemma ClosedMove(t: nat, pc: Pc, m: Mem, choice: Choice)
    requires m.life.closed
    ensures var (pc', m') := Move(t, pc, m, choice);
            && !pc'.StartStore?
            && (!pc.Unregister? ==> m'.life == if pc.StartStore? then m.life.(registered := true) else m.life)
  {
  }

  /** `early`: the backend was removed while a Start was pending. */
  ghost predicate RegistryOk(s: State, early: bool) {
    if s.mem.life.unregistered then early <==> StartPending(s) || s.mem.life.registered else !early
  }

  lemma RegistryAct(s: State, step: Step, early: bool)
    requires RegistryOk(s, early) && s.mem.life.closed && step.Act? && Enabled(s, step)
    requires var pc := s.threads[step.t];
             && LifeAgrees(pc, s.mem.life, s.mem.wire)
             && var (pc', m') := Move(step.t, pc, s.mem, step.choice);
             && !pc'.StartStore?
             && (!pc.Unregister? ==> m'.life == if pc.StartStore? then s.mem.life.(registered := true) else s.mem.life)
    ensures RegistryOk(Apply(s, step), early || (Removes(s, step) && StartPending(s)))
  {
    var s' := Apply(s, step);
    assert forall u :: u in s.threads && u != step.t ==> s'.threads[u] == s.threads[u];
  }

  lemma RegistryStep(s: State, step: Step, early: bool)
    requires Inv(s) && RegistryOk(s, early)
    ensures RegistryOk(Apply(s, step), early || (Removes(s, step) && StartPending(s)))
  {
    if Enabled(s, step) && step.Act? {
      assert ThreadOk(step.t, s.threads[step.t], s.mem);
      if s.mem.life.closed {
        ClosedMove(step.t, s.threads[step.t], s.mem, step.choice);
        RegistryAct(s, step, early);
      } else {
        MoveUnregisters(step.t, s.threads[step.t], s.mem, step.choice);
      }
    } else {
      var s' := Apply(s, step);
      assert s'.mem.life == s.mem.life;
      assert forall u :: u in s.threads ==> u in s'.threads && s'.threads[u] == s.threads[u];
      assert forall u :: u in s'.threads && u !in s.threads ==> !s'.threads[u].StartStore?;
    }
  }

  lemma LockedKeepsRegistry(pc: Pc, m: Mem)
    requires HoldsMu(pc)
    ensures Locked(pc, m).1.life.unregistered == m.life.unregistered && !Locked(pc, m).0.WriteClose?
  {
  }

  /** Only a Close's removal unregisters, and only that leads to telling the client. */
  lemma MoveUnregisters(t: nat, pc: Pc, m: Mem, choice: Choice)
    ensures var (pc', m') := Move(t, pc, m, choice);
            && (m'.life.unregistered <==> m.life.unregistered || pc.Unregister?)
            && (pc'.WriteClose? <==> pc.Unregister?)
  {
    if HoldsMu(pc) {
      LockedKeepsRegistry(pc, m);
    }
  }

  lemma {:induction false} RegistryAlways(steps: seq<Step>)
    ensures RegistryOk(After(steps), RemovedTooEarly(steps))
  {
    if steps != [] {
      var before := steps[..|steps| - 1];
      RegistryAlways(before);
      InvAlways(before);
      RegistryStep(After(before), steps[|steps| - 1], RemovedTooEarly(before));
    }
  }

  /** Once everything has finished, a closed backend is still in the registry
      exactly when Close removed it while a Start had unlocked and not stored yet. */
  lemma {:induction false} LeftInRegistryExactly(steps: seq<Step>)
    requires Quiet(After(steps)) && After(steps).mem.life.closed
    ensures After(steps).mem.life.registered <==> RemovedTooEarly(steps)
  {
    InvAlways(steps);
    RegistryAlways(steps);
  }

  ghost predicate Reachable(s: State) {
    exists steps :: After(steps) == s
  }

  lemma Do(s: State, step: Step) returns (s': State)
    requires Reachable(s)
    ensures s' == Apply(s, step) && Reachable(s')
  {
    var steps :| After(steps) == s;
    s' := Apply(s, step);
    assert (steps + [step])[..|steps|] == steps;
    assert After(steps + [step]) == s';
  }

  lemma StartLocks() returns (s: State)
    ensures Reachable(s)
    ensures s == START.(threads := map[0 := StartInMu], mem := START.mem.(locks := Locks(None, Some(0))))
  {
    assert After([]) == START;
    s := Do(START, Begin(0, Start));
    s := Do(s, Act(0, Ok));
  }

  /** A Start that unlocked before Close began, but has not stored yet. */
  lemma StartHalfway() returns (s: State)
    ensures Reachable(s)
    ensures s == START.(threads := map[0 := StartStore],
                        mem := START.mem.(life := START.mem.life.(started := true)))
  {
    s := StartLocks();
    s := Do(s, Act(0, Ok));
  }

  /** A state in which only the flags matter. */
  ghost predicate Looks(s: State, pc0: Pc, pc1: Pc, closed: bool, registered: bool) {
    && Reachable(s) && s.threads == map[0 := pc0, 1 := pc1]
    && s.mem.life.closed == closed && s.mem.life.started && s.mem.life.registered == registered
    && s.mem.locks.mu == None && s.mem.reqs.waiters == {}
  }

  lemma CloseTakesOver() returns (s: State)
    ensures Looks(s, StartStore, CloseWantMu, false, false)
  {
    s := StartHalfway();
    s := Do(s, Begin(1, Close));
    s := Do(s, Act(1, Ok));
  }

  lemma CloseRuns() returns (s: State)
    ensures Looks(s, StartStore, Notify({}, true), true, false)
  {
    s := CloseTakesOver();
    s := Do(s, Act(1, Ok));
    s := Do(s, Act(1, Ok));
  }

  lemma CloseRemoves() returns (s: State)
    ensures Looks(s, StartStore, WriteClose, true, false)
  {
    s := CloseRuns();
    s := Do(s, Act(1, Ok));
    assert Looks(s, StartStore, Unregister, true, false);
    s := Do(s, Act(1, Ok));
  }

  lemma CloseEnds() returns (s: State)
    ensures Looks(s, StartStore, EndClose, true, false)
  {
    s := CloseRemoves();
    s := Do(s, Act(1, Ok));
  }

  ghost predicate Leaked(s: State) {
    Quiet(s) && s.mem.life.closed && s.mem.life.registered
  }

  /** Start unlocks before it stores: when Close runs in between, the closed
      backend stays in the registry for good. */
  lemma LateStartLeaks()
    ensures exists steps :: Leaked(After(steps))
  {
    var s := CloseEnds();
    s := Do(s, Act(1, Ok));
    assert Looks(s, StartStore, Returned, true, false);
    s := Do(s, Act(0, Ok));
    assert Looks(s, Returned, Returned, true, true);
    var steps :| After(steps) == s;
    assert Leaked(After(steps));
  }
}
