/** What a stdio backend's calls bring about (agent/controller/mcpstdio.go): what a
    Send and a Close put on the wire, which message and which ack goes where, who is
    woken by a Close, and why a Send fails. */
module StdioDelivery {
  import opened Prelude
  import opened StdioBackend

  // ---- what is on the wire --------------------------------------------------

  function Times(wire: seq<Wire>, req: nat): nat {
    multiset(wire)[Request(req)]
  }

  lemma TimesPut(wire: seq<Wire>, w: Wire, req: nat)
    ensures Times(wire + [w], req) == Times(wire, req) + if w == Request(req) then 1 else 0
  {
    assert multiset(wire + [w]) == multiset(wire) + multiset{w};
  }

  /** What a step puts on the wire. */
  function Puts(pc: Pc, choice: Choice): seq<Wire> {
    if choice.Fail? then []
    else if pc.Write? then [Request(pc.req)] else if pc.WriteClose? then [CloseBackend] else []
  }

  lemma MoveWire(t: nat, pc: Pc, m: Mem, choice: Choice)
    ensures Move(t, pc, m, choice).1.wire == m.wire + Puts(pc, choice)
  {
  }

  predicate SameIds(q: Reqs, q': Reqs) {
    q'.owner == q.owner && q'.acks.Keys == q.acks.Keys
  }

  lemma LockedIds(pc: Pc, m: Mem)
    ensures SameIds(m.reqs, Locked(pc, m).1.reqs)
  {
  }

  lemma MoveAcks(t: nat, pc: Pc, m: Mem, choice: Choice)
    ensures SameIds(m.reqs, Move(t, pc, m, choice).1.reqs)
  {
    if HoldsMu(pc) {
      LockedIds(pc, m);
    }
  }

  /** How often the request of a Send in `pc` is on the wire. */
  predicate WireCount(pc: Pc, n: nat)
    requires OfSend(pc)
  {
    if Unwritten(pc) || pc.Write? || (pc.EndWrite? && !pc.written) then n == 0
    else if pc.EndWrite? || pc.Wait? || pc.result.Delivered? then n == 1
    else n <= 1
  }

  lemma SendMoves(t: nat, pc: Pc, m: Mem, choice: Choice, n: nat)
    requires CanAct(m, pc, choice) && OfSend(pc) && WireCount(pc, n)
    ensures var pc' := Move(t, pc, m, choice).0;
            && OfSend(pc') && pc'.req == pc.req
            && WireCount(pc', n + if pc.Write? && !choice.Fail? then 1 else 0)
  {
  }

  lemma OtherMoves(t: nat, pc: Pc, m: Mem, choice: Choice)
    requires !OfSend(pc)
    ensures !OfSend(Move(t, pc, m, choice).0)
  {
  }

  ghost predicate SendOnWire(s: State, t: nat)
    requires t in s.threads
  {
    OfSend(s.threads[t]) ==> WireCount(s.threads[t], Times(s.mem.wire, s.threads[t].req))
  }

  ghost predicate WireInv(s: State) {
    && (forall t :: t in s.threads ==> SendOnWire(s, t))
    && (forall r :: r !in s.mem.reqs.acks ==> Times(s.mem.wire, r) == 0)
    && (forall r :: r in s.mem.reqs.acks ==>
          r in s.mem.reqs.owner && s.mem.reqs.owner[r] in s.threads
          && OfSend(s.threads[s.mem.reqs.owner[r]]) && s.threads[s.mem.reqs.owner[r]].req == r)
  }

  lemma WireTimes(s: State, t: nat, choice: Choice, r: nat)
    requires Enabled(s, Act(t, choice))
    ensures var pc := s.threads[t];
            Times(Apply(s, Act(t, choice)).mem.wire, r) ==
              Times(s.mem.wire, r) + if pc.Write? && pc.req == r && !choice.Fail? then 1 else 0
  {
    var pc, wire := s.threads[t], s.mem.wire;
    MoveWire(t, pc, s.mem, choice);
    if Puts(pc, choice) == [] {
      assert wire + Puts(pc, choice) == wire;
    } else {
      TimesPut(wire, Puts(pc, choice)[0], r);
      assert wire + Puts(pc, choice) == wire + [Puts(pc, choice)[0]];
    }
  }

  lemma WireOwn(s: State, t: nat, choice: Choice)
    requires Enabled(s, Act(t, choice)) && SendOnWire(s, t)
    ensures var pc' := Apply(s, Act(t, choice)).threads[t];
            && SendOnWire(Apply(s, Act(t, choice)), t)
            && (OfSend(pc') <==> OfSend(s.threads[t]))
            && (OfSend(pc') ==> pc'.req == s.threads[t].req)
  {
    var pc := s.threads[t];
    if OfSend(pc) {
      SendMoves(t, pc, s.mem, choice, Times(s.mem.wire, pc.req));
      WireTimes(s, t, choice, pc.req);
    } else {
      OtherMoves(t, pc, s.mem, choice);
    }
  }

  lemma WireOther(s: State, t: nat, choice: Choice, u: nat)
    requires Enabled(s, Act(t, choice)) && u in s.threads && u != t && SendOnWire(s, u)
    requires ThreadOk(t, s.threads[t], s.mem) && ThreadOk(u, s.threads[u], s.mem)
    ensures SendOnWire(Apply(s, Act(t, choice)), u)
  {
    if OfSend(s.threads[u]) {
      WireTimes(s, t, choice, s.threads[u].req);
    }
  }

  lemma WireAct(s: State, t: nat, choice: Choice)
    requires Inv(s) && WireInv(s) && Enabled(s, Act(t, choice))
    ensures WireInv(Apply(s, Act(t, choice)))
  {
    var s' := Apply(s, Act(t, choice));
    assert ThreadOk(t, s.threads[t], s.mem) && SendOnWire(s, t);
    MoveAcks(t, s.threads[t], s.mem, choice);
    WireOwn(s, t, choice);
    forall u | u in s'.threads ensures SendOnWire(s', u) {
      if u != t {
        assert SendOnWire(s, u) && ThreadOk(u, s.threads[u], s.mem);
        WireOther(s, t, choice, u);
      }
    }
    forall r | r !in s'.mem.reqs.acks ensures Times(s'.mem.wire, r) == 0 {
      WireTimes(s, t, choice, r);
    }
  }

  lemma WireBeginSend(s: State, t: nat)
    requires Inv(s) && WireInv(s) && Enabled(s, Begin(t, Send))
    ensures WireInv(Apply(s, Begin(t, Send)))
  {
    var s' := Apply(s, Begin(t, Send));
    assert forall u :: u in s.threads ==> u != t && s'.threads[u] == s.threads[u];
    forall u | u in s'.threads ensures SendOnWire(s', u) {
      if u != t {
        assert SendOnWire(s, u);
      }
    }
  }

  lemma WireBegin(s: State, t: nat, op: Op)
    requires Inv(s) && WireInv(s) && Enabled(s, Begin(t, op))
    ensures WireInv(Apply(s, Begin(t, op)))
  {
    if op.Send? {
      WireBeginSend(s, t);
    } else {
      var s' := Apply(s, Begin(t, op));
      assert s'.mem == s.mem && !OfSend(s'.threads[t]);
      forall u | u in s'.threads && u != t ensures SendOnWire(s', u) {
        assert SendOnWire(s, u);
      }
    }
  }

  lemma {:induction false} WireAlways(steps: seq<Step>)
    ensures WireInv(After(steps))
  {
    if steps != [] {
      var before := steps[..|steps| - 1];
      var s := After(before);
      WireAlways(before);
      InvAlways(before);
      if Enabled(s, steps[|steps| - 1]) {
        match steps[|steps| - 1]
        case Begin(t, op) => WireBegin(s, t, op);
        case Act(t, choice) => WireAct(s, t, choice);
        case Pump =>
          forall u | u in s.threads ensures SendOnWire(After(steps), u) {
            assert SendOnWire(s, u);
          }
      }
    }
  }

  /** No request is on the wire twice. That of a Send that has written it, waits for
      its ack or returned success is there once; that of a Send that has not come to
      writing it, or whose write did not happen, is not. */
  lemma {:induction false} RequestsOnWire(steps: seq<Step>, t: nat, req: nat)
    ensures var s := After(steps);
            && Times(s.mem.wire, req) <= 1
            && (t in s.threads && OfSend(s.threads[t]) && s.threads[t].req == req ==>
                  var pc := s.threads[t];
                  && (pc == EndWrite(req, true) || pc.Wait? || (pc.Sent? && pc.result.Delivered?) ==>
                        Times(s.mem.wire, req) == 1)
                  && (pc.Encode? || pc.WantSend? || pc.WantMu? || pc.InMu? || pc.Write? || pc == EndWrite(req, false) ==>
                        Times(s.mem.wire, req) == 0))
  {
    WireAlways(steps);
    var s := After(steps);
    if req in s.mem.reqs.acks {
      assert SendOnWire(s, s.mem.reqs.owner[req]);
    }
    if t in s.threads {
      assert SendOnWire(s, t);
    }
  }

  // ---- the close on the wire ------------------------------------------------

  /** A Close tries to tell the client and cannot. */
  ghost predicate FailsToTell(s: State, step: Step) {
    step.Act? && step.choice.Fail? && Enabled(s, step) && s.threads[step.t].WriteClose?
  }

  ghost predicate TellingFailed(steps: seq<Step>) {
    steps != [] &&
    var before, last := steps[..|steps| - 1], steps[|steps| - 1];
    TellingFailed(before) || FailsToTell(After(before), last)
  }

  ghost predicate Telling(s: State) {
    exists t :: t in s.threads && s.threads[t].WriteClose?
  }

  ghost predicate CloseOk(s: State, failed: bool) {
    if s.mem.life.unregistered && !Telling(s) then CloseBackend in s.mem.wire <==> !failed
    else CloseBackend !in s.mem.wire && !failed
  }

  lemma TellingAfter(s: State, t: nat, choice: Choice)
    requires Inv(s) && Enabled(s, Act(t, choice))
    ensures Telling(Apply(s, Act(t, choice))) <==>
              s.threads[t].Unregister? || (Telling(s) && !s.threads[t].WriteClose?)
  {
    var s' := Apply(s, Act(t, choice));
    MoveUnregisters(t, s.threads[t], s.mem, choice);
    assert ThreadOk(t, s.threads[t], s.mem);
    if s.threads[t].Unregister? {
      assert s'.threads[t].WriteClose?;
    } else if Telling(s) && !s.threads[t].WriteClose? {
      var u :| u in s.threads && s.threads[u].WriteClose?;
      assert s'.threads[u].WriteClose?;
    } else {
      forall u | u in s.threads && u != t ensures !s.threads[u].WriteClose? {
        assert ThreadOk(u, s.threads[u], s.mem);
      }
    }
  }

  lemma TellAct(s: State, t: nat, choice: Choice, failed: bool)
    requires Inv(s) && CloseOk(s, failed) && Enabled(s, Act(t, choice))
    ensures CloseOk(Apply(s, Act(t, choice)), failed || FailsToTell(s, Act(t, choice)))
  {
    MoveWire(t, s.threads[t], s.mem, choice);
    MoveUnregisters(t, s.threads[t], s.mem, choice);
    TellingAfter(s, t, choice);
    assert ThreadOk(t, s.threads[t], s.mem);
    assert s.threads[t].WriteClose? ==> Telling(s);
    assert CloseBackend in s.mem.wire + Puts(s.threads[t], choice) <==>
        CloseBackend in s.mem.wire || CloseBackend in Puts(s.threads[t], choice);
  }

  lemma {:induction false} TellAlways(steps: seq<Step>)
    ensures CloseOk(After(steps), TellingFailed(steps))
  {
    if steps != [] {
      var before, last := steps[..|steps| - 1], steps[|steps| - 1];
      var s := After(before);
      TellAlways(before);
      InvAlways(before);
      if last.Act? && Enabled(s, last) {
        TellAct(s, last.t, last.choice, TellingFailed(before));
      } else {
        var s' := After(steps);
        assert s'.mem.wire == s.mem.wire && s'.mem.life == s.mem.life;
        assert forall u :: u in s.threads ==> u in s'.threads && s'.threads[u] == s.threads[u];
        assert forall u :: u in s'.threads && u !in s.threads ==> !s'.threads[u].WriteClose?;
      }
    }
  }

  /** When everything has finished, the client of a closed backend has been told
      exactly when the backend had been started and the transport took the message. */
  lemma {:induction false} CloseOnWireExactly(steps: seq<Step>)
    requires Quiet(After(steps)) && After(steps).mem.life.closed
    ensures CloseBackend in After(steps).mem.wire <==> After(steps).mem.life.started && !TellingFailed(steps)
  {
    InvAlways(steps);
    TellAlways(steps);
  }

  // ---- messages and acks ----------------------------------------------------

  /** A message delivered while the backend is open joins the pump's buffer unless 64
      are waiting there, and is counted as dropped if so; later ones change nothing. */
  lemma {:induction false} DeliverExactly(steps: seq<Step>, t: nat, choice: Choice, msg: Msg)
    requires t in After(steps).threads && After(steps).threads[t] == DeliverInMu(msg)
    ensures var m, m' := After(steps).mem, Apply(After(steps), Act(t, choice)).mem;
            if m.life.closed then m'.feed == m.feed
            else if |m.feed.recv| < 64 then m'.feed.recv == m.feed.recv + [msg] && m'.feed.dropped == m.feed.dropped
            else m'.feed.recv == m.feed.recv && m'.feed.dropped == m.feed.dropped + 1
  {
    InvAlways(steps);
  }

  /** As long as something is buffered the pump gets the oldest, and with as many turns
      as there are messages it gets them all, in the order they were accepted. */
  lemma {:induction false} PumpCatchesUp(steps: seq<Step>) returns (more: seq<Step>)
    ensures forall step :: step in more ==> step.Pump?
    ensures var f, f' := After(steps).mem.feed, After(steps + more).mem.feed;
            f'.recv == [] && f'.consumed == f.accepted && f'.accepted == f.accepted
    decreases |After(steps).mem.feed.recv|
  {
    InvAlways(steps);
    if After(steps).mem.feed.recv == [] {
      more := [];
      assert steps + more == steps;
    } else {
      assert (steps + [Pump])[..|steps|] == steps;
      var rest := PumpCatchesUp(steps + [Pump]);
      more := [Pump] + rest;
      assert steps + more == steps + [Pump] + rest;
    }
  }

  /** A Send between registering its waiter and taking its outcome. */
  predicate Registered(pc: Pc) {
    pc.Write? || pc.Wait? || (pc.EndWrite? && pc.written)
  }

  /** The holder of `sendMu` is a Close that still has to close the channel of `req`. */
  ghost predicate Waking(s: State, req: nat) {
    var u := s.mem.locks.sendMu;
    u.Some? && u.value in s.threads && s.threads[u.value].Notify? && req in s.threads[u.value].todo
  }

  ghost predicate Awake(s: State, req: nat) {
    && req in s.mem.reqs.acks
    && if !s.mem.life.closed then req in s.mem.reqs.waiters else !s.mem.reqs.acks[req].open || Waking(s, req)
  }

  ghost predicate WakeInv(s: State) {
    forall t :: t in s.threads && Registered(s.threads[t]) ==> Awake(s, s.threads[t].req)
  }

  /** What `m'` has left for the Send of `r`. */
  ghost predicate Leaves(m: Mem, m': Mem, r: nat) {
    && m'.life.closed == m.life.closed
    && (r in m.reqs.waiters ==> r in m'.reqs.waiters)
    && r in m.reqs.acks && r in m'.reqs.acks && m'.reqs.acks[r].open == m.reqs.acks[r].open
  }

  lemma LockedLeaves(pc: Pc, m: Mem, r: nat)
    requires HoldsMu(pc) && !pc.CloseInMu? && (pc.Forget? ==> pc.req != r) && r in m.reqs.acks
    ensures Leaves(m, Locked(pc, m).1, r)
  {
  }

  lemma OtherLeaves(pc: Pc, m: Mem, choice: Choice, r: nat)
    requires !pc.Notify? && r in m.reqs.acks
    ensures Leaves(m, Other(pc, m, choice).1, r)
  {
  }

  /** A step that is neither a Close's nor the end of this Send's own wait. */
  lemma MoveQuiet(t: nat, pc: Pc, m: Mem, choice: Choice, r: nat)
    requires !pc.CloseInMu? && !pc.Notify? && (pc.Forget? ==> pc.req != r) && r in m.reqs.acks
    ensures Leaves(m, Move(t, pc, m, choice).1, r)
  {
    if HoldsMu(pc) {
      LockedLeaves(pc, m, r);
    } else {
      OtherLeaves(pc, m, choice, r);
    }
  }

  lemma WakeQuiet(s: State, t: nat, choice: Choice, r: nat)
    requires Enabled(s, Act(t, choice)) && ThreadOk(t, s.threads[t], s.mem) && Awake(s, r)
    requires var pc := s.threads[t]; !pc.CloseInMu? && !pc.Notify? && (pc.Forget? ==> pc.req != r)
    requires s.mem.locks.sendMu.Some? && s.mem.locks.sendMu != Some(t) ==>
               Apply(s, Act(t, choice)).mem.locks.sendMu == s.mem.locks.sendMu
    ensures Awake(Apply(s, Act(t, choice)), r)
  {
    MoveQuiet(t, s.threads[t], s.mem, choice, r);
  }

  lemma WakeMark(s: State, t: nat, choice: Choice, r: nat)
    requires Enabled(s, Act(t, choice)) && ThreadOk(t, s.threads[t], s.mem) && Awake(s, r)
    requires s.threads[t].CloseInMu?
    ensures Awake(Apply(s, Act(t, choice)), r)
  {
  }

  lemma WakeNotify(s: State, t: nat, choice: Choice, r: nat)
    requires Enabled(s, Act(t, choice)) && ThreadOk(t, s.threads[t], s.mem) && Awake(s, r)
    requires s.threads[t].Notify?
    ensures Awake(Apply(s, Act(t, choice)), r)
  {
  }

  lemma WakeOther(s: State, t: nat, choice: Choice, u: nat)
    requires Inv(s) && Enabled(s, Act(t, choice)) && u in s.threads && u != t
    requires Registered(s.threads[u]) && Awake(s, s.threads[u].req)
    ensures Awake(Apply(s, Act(t, choice)), s.threads[u].req)
  {
    assert ThreadOk(t, s.threads[t], s.mem) && ThreadOk(u, s.threads[u], s.mem);
    if s.threads[t].CloseInMu? {
      WakeMark(s, t, choice, s.threads[u].req);
    } else if s.threads[t].Notify? {
      WakeNotify(s, t, choice, s.threads[u].req);
    } else {
      MoveGood(t, s.threads[t], s.mem, choice);
      WakeQuiet(s, t, choice, s.threads[u].req);
    }
  }

  lemma WakeRegister(s: State, t: nat, choice: Choice)
    requires Enabled(s, Act(t, choice)) && s.threads[t].InMu? && ThreadOk(t, s.threads[t], s.mem)
    ensures var s' := Apply(s, Act(t, choice));
            Registered(s'.threads[t]) ==> Awake(s', s'.threads[t].req)
  {
  }

  /** Only a Send that registers, or already has, is registered. */
  lemma RegisteredMove(t: nat, pc: Pc, m: Mem, choice: Choice)
    requires !pc.InMu? && Registered(Move(t, pc, m, choice).0)
    ensures pc.Write? || (pc.EndWrite? && pc.written) || pc.Wait?
    ensures CanAct(m, pc, choice) ==> pc.Write? || pc.EndWrite?
    ensures Move(t, pc, m, choice).0.req == pc.req
  {
  }

  lemma WakeOwn(s: State, t: nat, choice: Choice)
    requires Inv(s) && Enabled(s, Act(t, choice))
    requires Registered(s.threads[t]) ==> Awake(s, s.threads[t].req)
    ensures var s' := Apply(s, Act(t, choice));
            Registered(s'.threads[t]) ==> Awake(s', s'.threads[t].req)
  {
    var pc, s' := s.threads[t], Apply(s, Act(t, choice));
    assert ThreadOk(t, pc, s.mem);
    if pc.InMu? {
      WakeRegister(s, t, choice);
    } else if Registered(s'.threads[t]) {
      RegisteredMove(t, pc, s.mem, choice);
      WakeQuiet(s, t, choice, pc.req);
    }
  }

  lemma WakeAct(s: State, t: nat, choice: Choice)
    requires Inv(s) && WakeInv(s) && Enabled(s, Act(t, choice))
    ensures WakeInv(Apply(s, Act(t, choice)))
  {
    var s' := Apply(s, Act(t, choice));
    forall u | u in s'.threads && Registered(s'.threads[u]) ensures Awake(s', s'.threads[u].req) {
      if u == t {
        WakeOwn(s, t, choice);
      } else {
        WakeOther(s, t, choice, u);
      }
    }
  }

  lemma WakeElse(s: State, step: Step)
    requires Inv(s) && WakeInv(s) && !step.Act?
    ensures WakeInv(Apply(s, step))
  {
    var s' := Apply(s, step);
    forall u | u in s'.threads && Registered(s'.threads[u]) ensures Awake(s', s'.threads[u].req) {
      assert u in s.threads && s'.threads[u] == s.threads[u];
    }
  }

  lemma {:induction false} WakeAlways(steps: seq<Step>)
    ensures WakeInv(After(steps))
  {
    if steps != [] {
      var before, last := steps[..|steps| - 1], steps[|steps| - 1];
      WakeAlways(before);
      InvAlways(before);
      if !last.Act? {
        WakeElse(After(before), last);
      } else if Enabled(After(before), last) {
        WakeAct(After(before), last.t, last.choice);
      }
    }
  }

  /** While the backend is open a Send that waits is a waiter, so an ack carrying its
      request id reaches it. Once a Close has gone through the waiters, its channel is
      closed, so it need not wait any longer. */
  lemma {:induction false} WaitingSends(steps: seq<Step>, t: nat)
    requires t in After(steps).threads && After(steps).threads[t].Wait?
    ensures var s, req := After(steps), After(steps).threads[t].req;
            && (!s.mem.life.closed ==> req in s.mem.reqs.waiters)
            && (s.mem.life.closed && (forall u :: u in s.threads ==> !s.threads[u].Notify?) ==>
                  req in s.mem.reqs.acks && !s.mem.reqs.acks[req].open && Enabled(s, Act(t, TakeAck)))
  {
    WakeAlways(steps);
    InvAlways(steps);
    assert ThreadOk(t, After(steps).threads[t], After(steps).mem);
  }

  /** An ack handled while its Send is a waiter is recorded, and kept in the Send's
      channel if it is the first; any other ack changes nothing. */
  lemma {:induction false} AckExactly(steps: seq<Step>, t: nat, choice: Choice, a: Ack)
    requires t in After(steps).threads && After(steps).threads[t] == AckInMu(a)
    ensures var q, q' := After(steps).mem.reqs, Apply(After(steps), Act(t, choice)).mem.reqs;
            if a.req in q.waiters
            then && a.req in q.arrived && q'.arrived == q.arrived[a.req := q.arrived[a.req] + [a]]
                 && a.req in q'.acks
                 && (q.arrived[a.req] == [] && q.acks[a.req].buf == [] ==> q'.acks[a.req].buf == [a])
            else q' == q
  {
    InvAlways(steps);
  }

  /** Only a Send that registers becomes a waiter. */
  lemma LockedWaiters(pc: Pc, m: Mem, r: nat)
    requires HoldsMu(pc)
    ensures r in Locked(pc, m).1.reqs.waiters && r !in m.reqs.waiters ==> pc == InMu(r)
    ensures pc.Forget? ==> pc.req !in Locked(pc, m).1.reqs.waiters
    ensures Locked(pc, m).0.Sent? ==> pc.Forget? && Locked(pc, m).0.req == pc.req
  {
  }

  lemma MoveWaiters(t: nat, pc: Pc, m: Mem, choice: Choice, r: nat)
    ensures r in Move(t, pc, m, choice).1.reqs.waiters && r !in m.reqs.waiters ==> pc == InMu(r)
    ensures pc.Forget? ==> pc.req !in Move(t, pc, m, choice).1.reqs.waiters
    ensures Move(t, pc, m, choice).0.Sent? && !pc.Sent? ==> pc.Forget? && Move(t, pc, m, choice).0.req == pc.req
  {
    if HoldsMu(pc) {
      LockedWaiters(pc, m, r);
    }
  }

  /** A Send that has returned is no waiter any more. */
  lemma {:induction false} ReturnedIsForgotten(steps: seq<Step>, t: nat)
    requires t in After(steps).threads && After(steps).threads[t].Sent?
    ensures After(steps).threads[t].req !in After(steps).mem.reqs.waiters
  {
    if steps != [] {
      var before, last := steps[..|steps| - 1], steps[|steps| - 1];
      var s := After(before);
      InvAlways(before);
      if t in s.threads && s.threads[t].Sent? {
        ReturnedIsForgotten(before, t);
        assert ThreadOk(t, s.threads[t], s.mem);
      }
      if last.Act? && Enabled(s, last) {
        assert ThreadOk(last.t, s.threads[last.t], s.mem);
        MoveWaiters(last.t, s.threads[last.t], s.mem, last.choice, After(steps).threads[t].req);
      }
    }
  }

  // ---- why a Send fails -----------------------------------------------------

  /** Its encoding or its write failed, its context ended, or it saw the backend go. */
  predicate Excused(steps: seq<Step>, t: nat) {
    exists step :: step in steps && step.Act? && step.t == t
                   && (step.choice.Fail? || step.choice.ContextDone? || step.choice.BackendDone?)
  }

  ghost predicate Reason(s: State, req: nat, excused: bool) {
    || excused || s.mem.life.closed
    || (req in s.mem.reqs.arrived && s.mem.reqs.arrived[req] != [] && s.mem.reqs.arrived[req][0].failed)
  }

  predicate Failing(pc: Pc) {
    (pc.EndWrite? && !pc.written) || (Settled(pc) && pc.result.NotDelivered?)
  }

  lemma FailsWaiting(s: State, t: nat, choice: Choice, excused: bool)
    requires Enabled(s, Act(t, choice)) && ThreadOk(t, s.threads[t], s.mem) && ReqsOk(s.mem.reqs, s.mem.life.closed)
    requires s.threads[t].Wait? && Awake(s, s.threads[t].req)
    requires choice.ContextDone? || choice.BackendDone? ==> excused
    ensures var s' := Apply(s, Act(t, choice)); Failing(s'.threads[t]) ==> Reason(s', s'.threads[t].req, excused)
  {
  }

  /** A Send that turns to failing without having waited had its encoding or write
      fail, or found the backend closed. */
  lemma TurnsToFailing(t: nat, pc: Pc, m: Mem, choice: Choice)
    requires CanAct(m, pc, choice) && !pc.Wait? && !Failing(pc) && Failing(Move(t, pc, m, choice).0)
    ensures choice.Fail? || (pc.InMu? && Move(t, pc, m, choice).1.life.closed)
  {
  }

  /** A failing Send goes on with its own request and takes no reason away. */
  lemma GoesOnFailing(t: nat, pc: Pc, m: Mem, choice: Choice)
    requires CanAct(m, pc, choice) && Failing(pc)
    ensures var (pc', m') := Move(t, pc, m, choice);
            OfSend(pc') && pc'.req == pc.req && m'.life == m.life && m'.reqs.arrived == m.reqs.arrived
  {
  }

  lemma FailsOwn(s: State, t: nat, choice: Choice, excused: bool)
    requires Enabled(s, Act(t, choice)) && ThreadOk(t, s.threads[t], s.mem) && ReqsOk(s.mem.reqs, s.mem.life.closed)
    requires Failing(s.threads[t]) ==> Reason(s, s.threads[t].req, excused)
    requires Registered(s.threads[t]) ==> Awake(s, s.threads[t].req)
    requires choice.Fail? || choice.ContextDone? || choice.BackendDone? ==> excused
    ensures var s' := Apply(s, Act(t, choice)); Failing(s'.threads[t]) ==> Reason(s', s'.threads[t].req, excused)
  {
    var pc := s.threads[t];
    if pc.Wait? {
      FailsWaiting(s, t, choice, excused);
    } else if Failing(pc) {
      GoesOnFailing(t, pc, s.mem, choice);
    } else if Failing(Apply(s, Act(t, choice)).threads[t]) {
      TurnsToFailing(t, pc, s.mem, choice);
    }
  }

  lemma FailsOther(s: State, t: nat, choice: Choice, u: nat, excused: bool)
    requires Inv(s) && Enabled(s, Act(t, choice)) && u in s.threads && u != t
    requires Failing(s.threads[u]) && Reason(s, s.threads[u].req, excused)
    ensures Reason(Apply(s, Act(t, choice)), s.threads[u].req, excused)
  {
    assert ThreadOk(t, s.threads[t], s.mem) && ThreadOk(u, s.threads[u], s.mem);
    MoveGood(t, s.threads[t], s.mem, choice);
  }

  /** A step of nobody gives no Send a reason to fail, nor takes one away. */
  lemma FailsElse(s: State, step: Step, t: nat, excused: bool)
    requires !step.Act? && t in Apply(s, step).threads && Failing(Apply(s, step).threads[t])
    ensures t in s.threads && Failing(s.threads[t]) && Apply(s, step).threads[t] == s.threads[t]
    ensures Reason(s, s.threads[t].req, excused) ==> Reason(Apply(s, step), s.threads[t].req, excused)
  {
  }

  lemma {:induction false} MoreExcused(steps: seq<Step>, step: Step, t: nat)
    ensures Excused(steps, t) ==> Excused(steps + [step], t)
    ensures step.Act? && step.t == t && (step.choice.Fail? || step.choice.ContextDone? || step.choice.BackendDone?) ==>
              Excused(steps + [step], t)
  {
    assert step in steps + [step];
    assert forall other :: other in steps ==> other in steps + [step];
  }

  lemma FailsStep(s: State, step: Step, t: nat, excused: bool)
    requires Inv(s) && WakeInv(s) && t in Apply(s, step).threads && Failing(Apply(s, step).threads[t])
    requires t in s.threads && Failing(s.threads[t]) ==> Reason(s, s.threads[t].req, excused)
    requires step.Act? && step.t == t && (step.choice.Fail? || step.choice.ContextDone? || step.choice.BackendDone?) ==> excused
    ensures Reason(Apply(s, step), Apply(s, step).threads[t].req, excused)
  {
    if !step.Act? {
      FailsElse(s, step, t, excused);
    } else if Enabled(s, step) {
      if step.t == t {
        assert ThreadOk(t, s.threads[t], s.mem);
        FailsOwn(s, t, step.choice, excused);
      } else {
        FailsOther(s, step.t, step.choice, t, excused);
      }
    }
  }

  /** A Send fails only for a reason: its encoding or write failed, its context ended,
      the backend has been closed, or the first ack it got says so. */
  lemma {:induction false} FailureHasReason(steps: seq<Step>, t: nat)
    requires t in After(steps).threads && Failing(After(steps).threads[t])
    ensures Reason(After(steps), After(steps).threads[t].req, Excused(steps, t))
  {
    if steps != [] {
      var before, last := steps[..|steps| - 1], steps[|steps| - 1];
      var s := After(before);
      assert steps == before + [last];
      MoreExcused(before, last, t);
      InvAlways(before);
      WakeAlways(before);
      if t in s.threads && Failing(s.threads[t]) {
        FailureHasReason(before, t);
      }
      FailsStep(s, last, t, Excused(steps, t));
    }
  }
}
