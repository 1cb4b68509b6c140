/** That the SSH and MCP paths serve their connections (agent/controller/agent.go,
    ssh.go, mcpproxy.go): what becomes of every packet received, and that workers
    and cleanups get to their end. */
module SessionServing {
  import opened Prelude
  import opened Keys
  import opened SessionTeardown
  import Q = PacketQueues

  // ---- every packet acted on is written or refused --------------------------

  function Packets(ws: seq<Write>): seq<Packet> {
    if ws == [] then [] else Packets(ws[..|ws| - 1]) + [ws[|ws| - 1].packet]
  }

  /** `a` is made of `w` and `r`, each in its order. */
  ghost predicate Merged(a: seq<Packet>, w: seq<Packet>, r: seq<Packet>) {
    if a == [] then w == [] && r == []
    else
      var front, last := a[..|a| - 1], a[|a| - 1];
      || (w != [] && w[|w| - 1] == last && Merged(front, w[..|w| - 1], r))
      || (r != [] && r[|r| - 1] == last && Merged(front, w, r[..|r| - 1]))
  }

  lemma MergedOne(a: seq<Packet>, w: seq<Packet>, r: seq<Packet>, p: Packet)
    requires Merged(a, w, r)
    ensures Merged(a + [p], w + [p], r) && Merged(a + [p], w, r + [p])
  {
    assert (a + [p])[..|a|] == a && (w + [p])[..|w|] == w && (r + [p])[..|r|] == r;
  }

  lemma {:induction false} MergedSizes(a: seq<Packet>, w: seq<Packet>, r: seq<Packet>)
    requires Merged(a, w, r)
    ensures |a| == |w| + |r| && (r == [] ==> a == w)
  {
    if a != [] {
      var front, last := a[..|a| - 1], a[|a| - 1];
      if w != [] && w[|w| - 1] == last && Merged(front, w[..|w| - 1], r) {
        MergedSizes(front, w[..|w| - 1], r);
        assert r == [] ==> a == front + [last] == w;
      } else {
        MergedSizes(front, w, r[..|r| - 1]);
      }
    }
  }

  /** The handler of the lane has found the session open and not come to an end yet. */
  predicate Deciding(o: Lane) {
    o.phases == [Active] || o.phases == [Built]
  }

  /** The packets acted on that have come to an end. */
  function Settled(o: Lane): seq<Packet> {
    if Deciding(o) && o.acted != [] then o.acted[..|o.acted| - 1] else o.acted
  }

  ghost predicate Served(o: Lane) {
    && (Deciding(o) ==> o.acted != [] && o.queue.busy == [o.acted[|o.acted| - 1]])
    && Merged(Settled(o), Packets(o.written), o.refused)
    && OwnWrites(o.id, o.written)
    && (!o.overflowed ==> o.queue.accepted == o.offered)
  }

  ghost predicate ServedInv(s: State) {
    forall l :: l in s.lanes ==> Served(s.lanes[l])
  }

  lemma PacketsOneMore(ws: seq<Write>, w: Write)
    ensures Packets(ws + [w]) == Packets(ws) + [w.packet]
  {
    assert (ws + [w])[..|ws|] == ws;
  }

  /** When a handler comes to its end its packet is settled. */
  lemma SettledOneMore(o: Lane, o': Lane)
    requires Deciding(o) && o.acted != [] && o.queue.busy == [o.acted[|o.acted| - 1]]
    requires o'.acted == o.acted && !Deciding(o')
    ensures Settled(o') == Settled(o) + o.queue.busy
  {
  }

  ghost predicate OwnWrites(id: Id, ws: seq<Write>) {
    forall i :: 0 <= i < |ws| ==> ws[i].key == KeyOf(id) && OfConn(id, ws[i].packet)
  }

  lemma OwnWritesOneMore(id: Id, ws: seq<Write>, w: Write)
    requires OwnWrites(id, ws) && w.key == KeyOf(id) && OfConn(id, w.packet)
    ensures OwnWrites(id, ws + [w])
  {
  }

  lemma ServedWrite(o: Lane, closed: set<string>, key: string)
    requires LaneOk(o, closed) && Served(o) && Deciding(o) && key == KeyOf(o.id)
    ensures Served(WriteLane(o, 0, key))
  {
    var o', p := WriteLane(o, 0, key), o.queue.busy[0];
    BusyOfConn(o, closed);
    assert o'.phases == [Writing] && o.queue.busy == [p];
    SettledOneMore(o, o');
    PacketsOneMore(o.written, Write(p, key));
    MergedOne(Settled(o), Packets(o.written), o.refused, p);
    OwnWritesOneMore(o.id, o.written, Write(p, key));
  }

  lemma ServedGiveUp(o: Lane)
    requires Served(o) && Deciding(o)
    ensures Served(GiveUpLane(o, 0))
  {
    var o', p := GiveUpLane(o, 0), o.queue.busy[0];
    assert o'.phases == [Leaving] && o.queue.busy == [p];
    SettledOneMore(o, o');
    MergedOne(Settled(o), Packets(o.written), o.refused, p);
  }

  /** The lane after a step of its own that writes and gives up nothing. */
  lemma ServedQuiet(o: Lane, o': Lane)
    requires Served(o) && o' == o.(queue := o'.queue, phases := o'.phases, offered := o'.offered, overflowed := o'.overflowed)
    requires !o'.overflowed ==> o'.queue.accepted == o'.offered
    requires Deciding(o') <==> Deciding(o)
    requires Deciding(o) ==> o'.queue.busy == o.queue.busy
    ensures Served(o')
  {
  }

  lemma ServedLetIn(o: Lane, p: Packet)
    requires Served(o) && o.phases == [Checking] && o.queue.busy == [p]
    ensures Served(o.(phases := [Active], acted := o.acted + [p]))
  {
    var o' := o.(phases := [Active], acted := o.acted + [p]);
    assert !Deciding(o) && Settled(o') == o.acted == Settled(o);
  }

  lemma ServedCheck(o: Lane, closed: set<string>)
    requires LaneOk(o, closed) && Served(o) && o.phases == [Checking]
    ensures Served(CheckLane(o, 0, closed))
  {
    var p := o.queue.busy[0];
    assert o.queue.busy == [p] && o.phases[0 := Active] == [Active];
    if p.sid in closed {
      ServedPhase(o, closed, 0, Leaving);
    } else {
      ServedLetIn(o, p);
    }
  }

  lemma ServedPush(o: Lane, p: Packet)
    requires Served(o)
    ensures Served(PushLane(o, p))
  {
    ServedQuiet(o, PushLane(o, p));
  }

  lemma ServedFetch(o: Lane, closed: set<string>)
    requires LaneOk(o, closed) && Served(o) && o.queue.idle > 0
    ensures Served(FetchLane(o))
  {
    assert o.phases == [] && (FetchLane(o).phases == [] || FetchLane(o).phases == [Waiting]);
    ServedQuiet(o, FetchLane(o));
  }

  lemma ServedFinish(o: Lane, closed: set<string>, i: nat)
    requires LaneOk(o, closed) && Served(o) && i < |o.phases| && o.phases[i].Leaving?
    ensures Served(FinishLane(o, i))
  {
    BusyOfConn(o, closed);
    assert FinishLane(o, i).phases == [];
    ServedQuiet(o, FinishLane(o, i));
  }

  /** A step that changes a phase between deciding and deciding, or neither. */
  lemma ServedPhase(o: Lane, closed: set<string>, i: nat, p: Phase)
    requires LaneOk(o, closed) && Served(o) && i < |o.phases|
    requires o.phases[i].Active? || o.phases[i].Built? <==> p.Active? || p.Built?
    ensures Served(o.(phases := o.phases[i := p]))
  {
    BusyOfConn(o, closed);
    ServedQuiet(o, o.(phases := o.phases[i := p]));
  }

  /** What a handler's step makes of its queue object. */
  function HandledLane(s: State, step: Step): Lane
    requires (OfHandler(step) || OfProxyUse(step)) && step.lane in s.lanes
    requires step.i < |s.lanes[step.lane].phases| && step.i < |s.lanes[step.lane].queue.busy|
  {
    var o := s.lanes[step.lane];
    match step
    case RLock(_, i) => o.(phases := o.phases[i := Checking])
    case CheckClosed(_, i) => CheckLane(o, i, s.closed)
    case GiveUp(_, i) => GiveUpLane(o, i)
    case RUnlock(_, i) => FinishLane(o, i)
    case FindProxy(l, i) => WriteLane(o, i, KeyOf(IdOf(s, l, i)))
    case BuildProxy(_, i) => o.(phases := o.phases[i := Built])
    case Register(l, i) => WriteLane(o, i, KeyOf(IdOf(s, l, i)))
    case WriteDone(_, i, _) => o.(phases := o.phases[i := Leaving])
    case _ => o
  }

  lemma HandledIs(s: State, step: Step)
    requires Enabled(s, step) && (OfHandler(step) || OfProxyUse(step))
    ensures step.lane in s.lanes
    ensures step.i < |s.lanes[step.lane].phases| && step.i < |s.lanes[step.lane].queue.busy|
    ensures Apply(s, step).lanes == s.lanes[step.lane := HandledLane(s, step)]
  {
  }

  lemma ServedHandler(s: State, step: Step)
    requires Inv(s) && ServedInv(s) && Enabled(s, step) && (OfHandler(step) || OfProxyUse(step))
    ensures step.lane in Apply(s, step).lanes && Served(Apply(s, step).lanes[step.lane])
  {
    HandledIs(s, step);
    OnlyHandler(s, step.lane, step.i);
    assert Served(s.lanes[step.lane]);
    ServedByPhase(s, step, s.lanes[step.lane]);
  }

  lemma OnlyHandler(s: State, l: nat, i: nat)
    requires Inv(s) && l in s.lanes && i < |s.lanes[l].phases|
    ensures LaneOk(s.lanes[l], s.closed) && i == 0 && |s.lanes[l].phases| == 1 == |s.lanes[l].queue.busy|
    ensures OfConn(s.lanes[l].id, s.lanes[l].queue.busy[0])
  {
    assert LaneOk(s.lanes[l], s.closed);
    BusyOfConn(s.lanes[l], s.closed);
  }

  lemma ServedByPhase(s: State, step: Step, o: Lane)
    requires Enabled(s, step) && (OfHandler(step) || OfProxyUse(step))
    requires step.lane in s.lanes && o == s.lanes[step.lane] && step.i == 0 && |o.phases| == 1 == |o.queue.busy|
    requires LaneOk(o, s.closed) && Served(o) && OfConn(o.id, o.queue.busy[0])
    ensures Served(HandledLane(s, step))
  {
    match step
    case RLock(_, _) => ServedPhase(o, s.closed, 0, Checking);
    case CheckClosed(_, _) => ServedCheck(o, s.closed);
    case GiveUp(_, _) => ServedGiveUp(o);
    case RUnlock(_, _) => ServedFinish(o, s.closed, 0);
    case FindProxy(_, _) => ServedWrite(o, s.closed, KeyOf(o.id));
    case BuildProxy(_, _) => ServedPhase(o, s.closed, 0, Built);
    case Register(_, _) => ServedWrite(o, s.closed, KeyOf(o.id));
    case WriteDone(_, _, _) => ServedPhase(o, s.closed, 0, Leaving);
  }

  /** Which queue object a step can change. */
  function Touches(s: State, step: Step): Option<nat> {
    if step.RecvPush? && s.recv.Loaded? then Some(s.recv.lane)
    else if step.RecvLoad? then Some(step.newLane)
    else if step.Fetch? || OfHandler(step) || OfProxyUse(step) then Some(step.lane)
    else None
  }

  lemma OthersUntouched(s: State, step: Step, l: nat)
    requires l in Apply(s, step).lanes && Touches(s, step) != Some(l)
    ensures l in s.lanes && Apply(s, step).lanes[l] == s.lanes[l]
  {
  }

  lemma ServedRecv(s: State, step: Step, l: nat)
    requires Inv(s) && ServedInv(s) && Enabled(s, step) && l in Apply(s, step).lanes
    requires (step.RecvPush? && s.recv.lane == l) || (step.RecvLoad? && step.newLane == l) || (step.Fetch? && step.lane == l)
    ensures Served(Apply(s, step).lanes[l])
  {
    if step.RecvLoad? {
      assert Apply(s, step).lanes[l] == NewLane(step.id);
    } else {
      assert Served(s.lanes[l]) && LaneOk(s.lanes[l], s.closed);
      if step.RecvPush? {
        ServedPush(s.lanes[l], s.recv.pkt);
      } else {
        ServedFetch(s.lanes[l], s.closed);
      }
    }
  }

  lemma ServedTouched(s: State, step: Step, l: nat)
    requires Inv(s) && ServedInv(s) && Enabled(s, step) && Touches(s, step) == Some(l) && l in Apply(s, step).lanes
    ensures Served(Apply(s, step).lanes[l])
  {
    if OfHandler(step) || OfProxyUse(step) {
      ServedHandler(s, step);
    } else {
      ServedRecv(s, step, l);
    }
  }

  lemma ServedStep(s: State, step: Step)
    requires Inv(s) && ServedInv(s)
    ensures ServedInv(Apply(s, step))
  {
    if Enabled(s, step) {
      forall l | l in Apply(s, step).lanes ensures Served(Apply(s, step).lanes[l]) {
        if Touches(s, step) == Some(l) {
          ServedTouched(s, step, l);
        } else {
          OthersUntouched(s, step, l);
          assert Served(s.lanes[l]);
        }
      }
    }
  }

  lemma {:induction false} ServedAlways(steps: seq<Step>)
    ensures ServedInv(After(steps))
  {
    if steps != [] {
      var before := steps[..|steps| - 1];
      ServedAlways(before);
      InvAlways(before);
      ServedStep(After(before), steps[|steps| - 1]);
    }
  }

  /** In every run, the packets a queue object acted on, but for one whose handler is
      still at it, are those written and those refused, each in order; all were written
      if none was refused; and each was written to the proxy of its own connection. */
  lemma {:induction false} ActedAreWritten(steps: seq<Step>, l: nat)
    requires l in After(steps).lanes
    ensures var o := After(steps).lanes[l];
            && Merged(Settled(o), Packets(o.written), o.refused)
            && |o.acted| == |o.written| + |o.refused| + (if Deciding(o) then 1 else 0)
            && (o.refused == [] && !Deciding(o) ==> Packets(o.written) == o.acted)
            && (forall i :: 0 <= i < |o.written| ==>
                  o.written[i].key == Key(o.written[i].packet.sid, o.written[i].packet.conn) == KeyOf(o.id))
  {
    ServedAlways(steps);
    var o := After(steps).lanes[l];
    assert Served(o);
    MergedSizes(Settled(o), Packets(o.written), o.refused);
    PacketsSize(o.written);
  }

  lemma {:induction false} PacketsSize(ws: seq<Write>)
    ensures |Packets(ws)| == |ws|
  {
    if ws != [] {
      PacketsSize(ws[..|ws| - 1]);
    }
  }

  /** A write that fails unregisters the connection's proxy if it is an MCP one; the
      SSH path leaves that to the session's close, and a write that succeeds changes
      nothing in the store. */
  lemma {:induction false} WriteEndsExactly(steps: seq<Step>, l: nat, i: nat, failed: bool)
    requires Enabled(After(steps), WriteDone(l, i, failed))
    ensures var s, s' := After(steps), Apply(After(steps), WriteDone(l, i, failed));
            s'.store == if failed && s.lanes[l].id.kind == Mcp then s.store - {KeyOf(s.lanes[l].id)} else s.store
  {
    InvAlways(steps);
    OnlyHandler(After(steps), l, i);
  }

  // ---- every packet received is offered -------------------------------------

  /** The packets the recv loop took in for a connection. */
  ghost function Received(steps: seq<Step>, id: Id): seq<Packet> {
    if steps == [] then []
    else
      var before, last := steps[..|steps| - 1], steps[|steps| - 1];
      Received(before, id) +
      if last.RecvLoad? && last.id == id && Enabled(After(before), last)
      then [Q.Packet(id.sid, id.conn, last.payload)] else []
  }

  /** The packet on its way to queue object `l`. */
  function Loading(recv: Recv, l: nat): seq<Packet> {
    if recv.Loaded? && recv.lane == l then [recv.pkt] else []
  }

  ghost predicate OfferedAt(steps: seq<Step>, s: State, l: nat)
    requires l in s.lanes
  {
    s.lanes[l].id.sid !in s.closed ==> s.lanes[l].offered + Loading(s.recv, l) == Received(steps, s.lanes[l].id)
  }

  ghost predicate HasQueue(steps: seq<Step>, s: State, id: Id) {
    Received(steps, id) != [] ==> ColonFree(id.sid) && (id.sid !in s.closed ==> (id.kind, KeyOf(id)) in s.queues)
  }

  ghost predicate OfferedInv(steps: seq<Step>) {
    && (forall l :: l in After(steps).lanes ==> OfferedAt(steps, After(steps), l))
    && (forall id :: HasQueue(steps, After(steps), id))
  }

  /** The queue object in the map under a connection's key is that connection's. */
  lemma SlotIsOwn(s: State, id: Id)
    requires Inv(s) && ColonFree(id.sid) && (id.kind, KeyOf(id)) in s.queues
    ensures s.queues[(id.kind, KeyOf(id))] in s.lanes && s.lanes[s.queues[(id.kind, KeyOf(id))]].id == id
  {
    var l := s.queues[(id.kind, KeyOf(id))];
    assert LaneOk(s.lanes[l], s.closed);
    QueueFilterIsExact(id.sid, s.lanes[l].id.sid, s.lanes[l].id.conn);
  }

  lemma LoadOne(s: State, step: Step, l: nat)
    requires step.RecvLoad? && Enabled(s, step) && Inv(s) && l in s.lanes && s.lanes[l].id.sid !in s.closed
    ensures var s' := Apply(s, step);
            && s'.closed == s.closed && l in s'.lanes && s'.lanes[l] == s.lanes[l]
            && Loading(s'.recv, l) == if s.lanes[l].id == step.id then [Q.Packet(step.id.sid, step.id.conn, step.payload)] else []
  {
    if (step.id.kind, KeyOf(step.id)) in s.queues {
      SlotIsOwn(s, step.id);
    }
  }

  lemma OfferedLoad(before: seq<Step>, step: Step, l: nat)
    requires step.RecvLoad? && Enabled(After(before), step) && OfferedInv(before) && Inv(After(before))
    requires l in Apply(After(before), step).lanes
    ensures OfferedAt(before + [step], Apply(After(before), step), l)
  {
    var s := After(before);
    ReceivedOneMore(before, step);
    LoadNew(s, step);
    if l !in s.lanes {
      assert HasQueue(before, s, step.id);
    } else if s.lanes[l].id.sid !in s.closed {
      assert OfferedAt(before, s, l);
      LoadOne(s, step, l);
    } else {
      LoadOld(s, step, l);
    }
  }

  lemma ReceivedOneMore(before: seq<Step>, step: Step)
    requires step.RecvLoad? && Enabled(After(before), step)
    ensures forall id :: Received(before + [step], id) ==
              Received(before, id) + if step.id == id then [Q.Packet(id.sid, id.conn, step.payload)] else []
  {
    assert (before + [step])[..|before|] == before;
  }

  lemma LoadOld(s: State, step: Step, l: nat)
    requires step.RecvLoad? && Enabled(s, step) && l in s.lanes
    ensures l in Apply(s, step).lanes && Apply(s, step).lanes[l] == s.lanes[l]
  {
  }

  lemma LoadNew(s: State, step: Step)
    requires step.RecvLoad? && Enabled(s, step)
    ensures var s' := Apply(s, step);
            && s'.closed == s.closed
            && forall l :: l in s'.lanes && l !in s.lanes ==>
                 && (step.id.kind, KeyOf(step.id)) !in s.queues && s'.lanes[l] == NewLane(step.id)
                 && Loading(s'.recv, l) == [Q.Packet(step.id.sid, step.id.conn, step.payload)]
  {
  }

  /** A step of a handler leaves what its queue object was offered. */
  lemma HandlerOffers(s: State, step: Step, l: nat)
    requires Enabled(s, step) && (OfHandler(step) || OfProxyUse(step)) && l in s.lanes
    ensures var s' := Apply(s, step);
            && s'.recv == s.recv && s'.closed == s.closed && s'.queues == s.queues && s'.cleaners == s.cleaners
            && l in s'.lanes && s'.lanes[l].id == s.lanes[l].id && s'.lanes[l].offered == s.lanes[l].offered
  {
    HandledIs(s, step);
  }

  lemma CleanerOffers(s: State, step: Step)
    requires Enabled(s, step) && (OfCleaner(step) || step.OtherDel? || step.OtherSet?)
    ensures var s' := Apply(s, step); s'.recv == s.recv && s.closed <= s'.closed && s'.lanes == s.lanes
  {
  }

  lemma OfferedElse(before: seq<Step>, step: Step, l: nat)
    requires !(step.RecvLoad? && Enabled(After(before), step)) && OfferedInv(before) && Inv(After(before))
    requires l in Apply(After(before), step).lanes
    ensures OfferedAt(before + [step], Apply(After(before), step), l)
  {
    var s, s' := After(before), Apply(After(before), step);
    assert (before + [step])[..|before|] == before;
    assert Received(before + [step], s'.lanes[l].id) == Received(before, s'.lanes[l].id);
    if Enabled(s, step) {
      if OfHandler(step) || OfProxyUse(step) {
        HandledIs(s, step);
        HandlerOffers(s, step, l);
      } else if !step.RecvPush? && !step.Fetch? {
        CleanerOffers(s, step);
      }
    }
    assert l in s.lanes && OfferedAt(before, s, l);
    if Enabled(s, step) && step.RecvPush? {
      assert s.lanes[l].offered + Loading(s.recv, l) == s'.lanes[l].offered + Loading(s'.recv, l);
    }
  }

  lemma SlotsGrow(s: State, step: Step, slot: (Kind, string))
    requires slot in s.queues && !step.DropQueue?
    ensures slot in Apply(s, step).queues
  {
    if Enabled(s, step) && (OfHandler(step) || OfProxyUse(step)) {
      HandledIs(s, step);
      HandlerOffers(s, step, step.lane);
    }
  }

  lemma SlotDropped(s: State, step: Step, id: Id)
    requires Inv(s) && step.DropQueue? && Enabled(s, step) && ColonFree(id.sid) && id.sid !in s.closed
    ensures step.key != KeyOf(id)
  {
    QueueFilterIsExact(s.cleaners[step.cleaner].sid, id.sid, id.conn);
  }

  /** Only a cleanup of its own session takes a queue out of the map. */
  lemma SlotStays(s: State, step: Step, id: Id)
    requires Inv(s) && ColonFree(id.sid) && id.sid !in s.closed && (id.kind, KeyOf(id)) in s.queues
    ensures (id.kind, KeyOf(id)) in Apply(s, step).queues
  {
    if !step.DropQueue? {
      SlotsGrow(s, step, (id.kind, KeyOf(id)));
    } else if Enabled(s, step) {
      SlotDropped(s, step, id);
    }
  }

  lemma QueueStays(before: seq<Step>, step: Step, id: Id)
    requires OfferedInv(before) && Inv(After(before))
    ensures HasQueue(before + [step], Apply(After(before), step), id)
  {
    var s := After(before);
    assert (before + [step])[..|before|] == before;
    assert HasQueue(before, s, id);
    if Received(before, id) != [] && id.sid !in s.closed {
      SlotStays(s, step, id);
    } else if id.sid in s.closed {
      ClosedStays(s, step);
    }
  }

  lemma ClosedStays(s: State, step: Step)
    ensures s.closed <= Apply(s, step).closed
  {
    if Enabled(s, step) && (OfHandler(step) || OfProxyUse(step)) {
      HandledIs(s, step);
      HandlerOffers(s, step, step.lane);
    }
  }

  lemma {:induction false} OfferedAlways(steps: seq<Step>)
    ensures OfferedInv(steps)
  {
    if steps != [] {
      var before, last := steps[..|steps| - 1], steps[|steps| - 1];
      assert steps == before + [last];
      OfferedAlways(before);
      InvAlways(before);
      forall l | l in After(steps).lanes ensures OfferedAt(steps, After(steps), l) {
        if last.RecvLoad? && Enabled(After(before), last) {
          OfferedLoad(before, last, l);
        } else {
          OfferedElse(before, last, l);
        }
      }
      forall id ensures HasQueue(steps, After(steps), id) {
        QueueStays(before, last, id);
      }
    }
  }

  /** While a session is open, every packet received for a connection of it has been
      pushed to the connection's one queue, in order, or is about to be; and unless the
      queue overflowed it accepted them all. */
  lemma {:induction false} ReceivedAreQueued(steps: seq<Step>, id: Id)
    requires id.sid !in After(steps).closed && Received(steps, id) != []
    ensures var s := After(steps);
            && (id.kind, KeyOf(id)) in s.queues
            && var l := s.queues[(id.kind, KeyOf(id))];
            && l in s.lanes && s.lanes[l].id == id
            && s.lanes[l].offered + Loading(s.recv, l) == Received(steps, id)
            && (!s.lanes[l].overflowed ==> s.lanes[l].queue.accepted == s.lanes[l].offered)
  {
    OfferedAlways(steps);
    InvAlways(steps);
    ServedAlways(steps);
    assert HasQueue(steps, After(steps), id);
    SlotIsOwn(After(steps), id);
    var l := After(steps).queues[(id.kind, KeyOf(id))];
    assert OfferedAt(steps, After(steps), l) && Served(After(steps).lanes[l]);
  }

  // ---- the queues cleanup leaves --------------------------------------------

  /** No queue object in the map that is of session `sid` and not among `left` has
      ever acted. */
  ghost predicate Gone(s: State, sid: string, left: set<(Kind, string)>) {
    forall slot :: slot in s.queues && slot !in left ==>
      QueueAt(s, slot).None? || QueueAt(s, slot).value.id.sid != sid || QueueAt(s, slot).value.acted == []
  }

  function QueueAt(s: State, slot: (Kind, string)): Option<Lane>
    requires slot in s.queues
  {
    if s.queues[slot] in s.lanes then Some(s.lanes[s.queues[slot]]) else None
  }

  ghost predicate GoneAt(s: State, c: nat)
    requires c in s.cleaners
  {
    match s.cleaners[c].phase
    case Dropping(left) =>
      && Gone(s, s.cleaners[c].sid, left)
      && (forall slot :: slot in left ==> HasPrefix(slot.1, s.cleaners[c].sid + ":"))
    case Done => Gone(s, s.cleaners[c].sid, {})
    case _ => true
  }

  ghost predicate GoneInv(s: State) {
    forall c :: c in s.cleaners ==> GoneAt(s, c)
  }

  lemma GoneKept(s: State, s': State, sid: string, left: set<(Kind, string)>)
    requires Gone(s, sid, left) && Frozen(s, s', sid) && MapsOk(s.lanes, s.queues, s.closed)
    requires forall slot :: slot in s'.queues ==>
               (slot in s.queues && s'.queues[slot] == s.queues[slot]) || s'.queues[slot] !in s.lanes
    ensures Gone(s', sid, left)
  {
  }

  /** A slot in the map afterwards was there before, or is a new queue object's. */
  lemma SlotsAfter(s: State, step: Step)
    ensures var s' := Apply(s, step);
            forall slot :: slot in s'.queues ==>
              (slot in s.queues && s'.queues[slot] == s.queues[slot]) || s'.queues[slot] !in s.lanes
  {
    if Enabled(s, step) && (OfHandler(step) || OfProxyUse(step)) {
      HandledIs(s, step);
      HandlerOffers(s, step, step.lane);
    }
  }

  lemma GoneStep(s: State, step: Step, sid: string, left: set<(Kind, string)>)
    requires Inv(s) && sid in s.closed && Gone(s, sid, left)
    ensures Gone(Apply(s, step), sid, left)
  {
    FrozenStep(s, step, sid);
    SlotsAfter(s, step);
    GoneKept(s, Apply(s, step), sid, left);
  }

  lemma GoneOther(s: State, step: Step, c: nat)
    requires Inv(s) && GoneInv(s) && c in s.cleaners
    requires c in Apply(s, step).cleaners && Apply(s, step).cleaners[c] == s.cleaners[c]
    ensures GoneAt(Apply(s, step), c)
  {
    var r := s.cleaners[c];
    assert GoneAt(s, c);
    if r.phase.Dropping? {
      GoneStep(s, step, r.sid, r.phase.left);
    } else if r.phase.Done? {
      GoneStep(s, step, r.sid, {});
    }
  }

  lemma GoneFound(s: State, c: nat)
    requires Inv(s) && Enabled(s, SweepDone(c))
    ensures c in Apply(s, SweepDone(c)).cleaners && GoneAt(Apply(s, SweepDone(c)), c)
  {
    forall slot | slot in s.queues && s.lanes[s.queues[slot]].id.sid == s.cleaners[c].sid
      ensures HasPrefix(slot.1, s.cleaners[c].sid + ":") {
      assert slot.1 == KeyOf(s.lanes[s.queues[slot]].id);
    }
  }

  lemma GoneDropped(s: State, c: nat, kind: Kind, key: string)
    requires GoneInv(s) && Enabled(s, DropQueue(c, kind, key))
    ensures c in Apply(s, DropQueue(c, kind, key)).cleaners && GoneAt(Apply(s, DropQueue(c, kind, key)), c)
  {
    assert GoneAt(s, c);
  }

  lemma GoneUnlocked(s: State, c: nat)
    requires GoneInv(s) && Enabled(s, Unlock(c))
    ensures c in Apply(s, Unlock(c)).cleaners && GoneAt(Apply(s, Unlock(c)), c)
  {
    assert GoneAt(s, c);
  }

  /** Up to the sweep a cleanup has dropped nothing. */
  lemma EarlyCleanup(s: State, step: Step)
    requires Enabled(s, step) && OfCleaner(step) && !step.SweepDone? && !step.DropQueue? && !step.Unlock?
    ensures var s' := Apply(s, step);
            step.cleaner in s'.cleaners && !s'.cleaners[step.cleaner].phase.Dropping? && !s'.cleaners[step.cleaner].phase.Done?
  {
  }

  lemma GoneLate(s: State, step: Step, c: nat)
    requires GoneInv(s) && Enabled(s, step) && (step.DropQueue? || step.Unlock?) && step.cleaner == c
    ensures c in Apply(s, step).cleaners && GoneAt(Apply(s, step), c)
  {
    if step.DropQueue? {
      GoneDropped(s, c, step.kind, step.key);
    } else {
      GoneUnlocked(s, c);
    }
  }

  lemma GoneOwn(s: State, step: Step, c: nat)
    requires Inv(s) && GoneInv(s) && Enabled(s, step) && OfCleaner(step) && step.cleaner == c
    ensures c in Apply(s, step).cleaners && GoneAt(Apply(s, step), c)
  {
    if step.DropQueue? || step.Unlock? {
      GoneLate(s, step, c);
    } else if step.SweepDone? {
      GoneFound(s, c);
    } else {
      EarlyCleanup(s, step);
    }
  }

  /** Steps leave the other cleanups where they are. */
  lemma CleanersAfter(s: State, step: Step, c: nat)
    requires c in Apply(s, step).cleaners && !(Enabled(s, step) && OfCleaner(step) && step.cleaner == c)
    ensures c in s.cleaners && Apply(s, step).cleaners[c] == s.cleaners[c]
  {
    if Enabled(s, step) && (OfHandler(step) || OfProxyUse(step)) {
      HandledIs(s, step);
      HandlerOffers(s, step, step.lane);
    }
  }

  lemma {:induction false} GoneAlways(steps: seq<Step>)
    ensures GoneInv(After(steps))
  {
    if steps != [] {
      var before, last := steps[..|steps| - 1], steps[|steps| - 1];
      var s := After(before);
      GoneAlways(before);
      InvAlways(before);
      forall c | c in After(steps).cleaners ensures GoneAt(After(steps), c) {
        if Enabled(s, last) && OfCleaner(last) && last.cleaner == c {
          GoneOwn(s, last, c);
        } else {
          CleanersAfter(s, last, c);
          GoneOther(s, last, c);
        }
      }
    }
  }

  /** Once a cleanup is over, no queue that ever acted for the session is in the map:
      whatever is there was made by a packet that came too late, and never acts. */
  lemma {:induction false} QueuesAreDropped(steps: seq<Step>, c: nat, slot: (Kind, string))
    requires var s := After(steps);
             && c in s.cleaners && s.cleaners[c].phase.Done? && slot in s.queues && s.queues[slot] in s.lanes
             && s.lanes[s.queues[slot]].id.sid == s.cleaners[c].sid
    ensures After(steps).lanes[After(steps).queues[slot]].acted == []
  {
    GoneAlways(steps);
    assert GoneAt(After(steps), c);
  }

  // ---- a connection's worker gets through its packets -----------------------

  /** What the worker of a queue object does next, if nothing fails. */
  function NextOf(s: State, l: nat): Step
    requires l in s.lanes
  {
    var o := s.lanes[l];
    if o.phases == [] then Fetch(l)
    else match o.phases[0]
      case Waiting => RLock(l, 0)
      case Checking => CheckClosed(l, 0)
      case Active => if KeyOf(o.id) in s.store then FindProxy(l, 0) else BuildProxy(l, 0)
      case Built => Register(l, 0)
      case Writing => WriteDone(l, 0, false)
      case Leaving => RUnlock(l, 0)
  }

  function PhaseLeft(p: Phase): nat {
    match p
    case Waiting => 7
    case Checking => 6
    case Active => 5
    case Built => 4
    case Writing => 3
    case Leaving => 2
  }

  function LaneLeft(o: Lane): nat {
    9 * |o.queue.fifo.packets| + (if o.phases == [] then 0 else PhaseLeft(o.phases[0])) + if o.queue.fifo.running then 1 else 0
  }

  /** What the worker's steps leave alone, and what they do not undo. */
  ghost predicate Onward(s: State, s': State, l: nat) {
    && l in s.lanes && l in s'.lanes && s'.cleaners == s.cleaners && s'.closed == s.closed
    && var o, o' := s.lanes[l], s'.lanes[l];
    && o'.id == o.id && o'.queue.accepted == o.queue.accepted && o'.refused == o.refused
    && (WillRegister(o, s.store, s.closed) ==> WillRegister(o', s'.store, s'.closed))
  }

  /** One step of the worker. */
  ghost predicate Worked(s: State, s': State, l: nat) {
    Onward(s, s', l) && s'.lanes == s.lanes[l := s'.lanes[l]] && LaneLeft(s'.lanes[l]) < LaneLeft(s.lanes[l])
  }

  /** The connection has a proxy, or a packet for which the worker will find or make one. */
  predicate WillRegister(o: Lane, store: map<string, Entry>, closed: set<string>) {
    || KeyOf(o.id) in store
    || (o.id.sid !in closed && (o.queue.fifo.packets != [] || (o.phases != [] && PhaseLeft(o.phases[0]) >= 4)))
  }

  lemma WorkerFetches(s: State, l: nat)
    requires l in s.lanes && LaneOk(s.lanes[l], s.closed) && s.lanes[l].queue.fifo.running && s.lanes[l].phases == []
    ensures Enabled(s, NextOf(s, l)) && Worked(s, Apply(s, NextOf(s, l)), l)
  {
    assert s.lanes[l].queue.busy == [];
  }

  ghost predicate LaneWorked(o: Lane, o': Lane, store: map<string, Entry>, closed: set<string>) {
    && o'.id == o.id && o'.queue.accepted == o.queue.accepted && o'.refused == o.refused
    && LaneLeft(o') < LaneLeft(o)
    && (WillRegister(o, store, closed) && o.phases != [Built] ==> WillRegister(o', store, closed))
  }

  lemma FinishWorks(o: Lane, store: map<string, Entry>, closed: set<string>)
    requires o.phases == [Leaving] && |o.queue.busy| == 1
    ensures LaneWorked(o, FinishLane(o, 0), store, closed)
  {
    assert FinishLane(o, 0).phases == [];
  }

  /** The same for a handler's step, seen from its queue object and the store. */
  lemma HandlerWorks(s: State, l: nat)
    requires l in s.lanes && |s.lanes[l].phases| == 1 == |s.lanes[l].queue.busy| && IdOf(s, l, 0) == s.lanes[l].id
    ensures LaneWorked(s.lanes[l], HandledLane(s, NextOf(s, l)), s.store, s.closed)
  {
    var o := s.lanes[l];
    assert o.phases == [o.phases[0]];
    if o.phases[0].Leaving? {
      FinishWorks(o, s.store, s.closed);
    }
  }

  lemma WorkerStore(s: State, l: nat)
    requires l in s.lanes && s.lanes[l].phases != [] && Enabled(s, NextOf(s, l)) && IdOf(s, l, 0) == s.lanes[l].id
    ensures var s' := Apply(s, NextOf(s, l));
            s'.store == if s.lanes[l].phases[0].Built? then s.store[KeyOf(s.lanes[l].id) := Proxy(s.lanes[l].id)] else s.store
  {
  }

  lemma HandlerCanWork(s: State, l: nat)
    requires l in s.lanes && |s.lanes[l].phases| == 1 == |s.lanes[l].queue.busy| && IdOf(s, l, 0) == s.lanes[l].id
    requires s.lanes[l].phases[0].Waiting? ==> NoWriter(s.cleaners, s.lanes[l].id.sid)
    ensures Enabled(s, NextOf(s, l)) && (OfHandler(NextOf(s, l)) || OfProxyUse(NextOf(s, l)))
  {
  }

  lemma WorkerHandles(s: State, l: nat)
    requires l in s.lanes && LaneOk(s.lanes[l], s.closed) && s.lanes[l].phases != []
    requires s.lanes[l].phases[0].Waiting? ==> NoWriter(s.cleaners, s.lanes[l].id.sid)
    ensures Enabled(s, NextOf(s, l)) && Worked(s, Apply(s, NextOf(s, l)), l)
  {
    var o := s.lanes[l];
    BusyOfConn(o, s.closed);
    assert IdOf(s, l, 0) == o.id;
    HandlerCanWork(s, l);
    HandlerWorks(s, l);
    HandledIs(s, NextOf(s, l));
    HandlerOffers(s, NextOf(s, l), l);
    WorkerStore(s, l);
  }

  lemma WorkerMoves(s: State, l: nat)
    requires Inv(s) && l in s.lanes && s.lanes[l].queue.fifo.running && NoWriter(s.cleaners, s.lanes[l].id.sid)
    ensures Enabled(s, NextOf(s, l)) && Worked(s, Apply(s, NextOf(s, l)), l)
  {
    assert LaneOk(s.lanes[l], s.closed);
    if s.lanes[l].phases == [] {
      WorkerFetches(s, l);
    } else {
      WorkerHandles(s, l);
    }
  }

  predicate OfWorker(step: Step, l: nat) {
    (step.Fetch? || OfHandler(step) || OfProxyUse(step)) && step.lane == l
  }

  lemma OnwardTrans(s: State, m: State, s': State, l: nat)
    requires Onward(s, m, l) && Onward(m, s', l)
    ensures Onward(s, s', l)
  {
  }

  lemma {:induction false} WorkerCatchesUp(steps: seq<Step>, l: nat) returns (more: seq<Step>)
    requires l in After(steps).lanes && NoWriter(After(steps).cleaners, After(steps).lanes[l].id.sid)
    ensures forall step :: step in more ==> OfWorker(step, l)
    ensures Onward(After(steps), After(steps + more), l) && !After(steps + more).lanes[l].queue.fifo.running
    decreases LaneLeft(After(steps).lanes[l])
  {
    var s := After(steps);
    if !s.lanes[l].queue.fifo.running {
      more := [];
      assert steps + more == steps;
    } else {
      InvAlways(steps);
      var step := NextOf(s, l);
      WorkerMoves(s, l);
      NextIsOwn(s, l);
      assert (steps + [step])[..|steps|] == steps;
      assert After(steps + [step]) == Apply(s, step);
      var rest := WorkerCatchesUp(steps + [step], l);
      OnwardTrans(s, Apply(s, step), After(steps + [step] + rest), l);
      more := [step] + rest;
      assert steps + more == steps + [step] + rest;
    }
  }

  lemma NextIsOwn(s: State, l: nat)
    requires l in s.lanes
    ensures OfWorker(NextOf(s, l), l)
  {
  }

  /** An open session's connections are served: from every reachable state in which no
      cleanup of the session is under way, steps of the connection's worker alone, none
      of which gives up, bring it to where every packet the queue accepted has been
      acted on and, but for those refused before, written in order to the connection's
      proxy, which is registered if there was anything to write. */
  lemma {:induction false} ConnectionIsServed(steps: seq<Step>, l: nat) returns (more: seq<Step>)
    requires var s := After(steps);
             l in s.lanes && s.lanes[l].id.sid !in s.closed && NoWriter(s.cleaners, s.lanes[l].id.sid)
    ensures forall step :: step in more ==> OfWorker(step, l)
    ensures var s, s' := After(steps), After(steps + more);
            && l in s'.lanes
            && var o, o' := s.lanes[l], s'.lanes[l];
            && o'.acted == o'.queue.handled == o.queue.accepted
            && o'.refused == o.refused && Merged(o'.acted, Packets(o'.written), o.refused)
            && (o.queue.handled + o.queue.busy != o.queue.accepted ==> KeyOf(o.id) in s'.store)
  {
    more := WorkerCatchesUp(steps, l);
    InvAlways(steps);
    InvAlways(steps + more);
    ServedAlways(steps + more);
    var o, o' := After(steps).lanes[l], After(steps + more).lanes[l];
    assert LaneOk(o, After(steps).closed) && LaneOk(o', After(steps).closed) && Served(o');
    IdleLane(o', After(steps).closed);
    NothingQueued(o, After(steps).closed);
  }

  lemma IdleLane(o: Lane, closed: set<string>)
    requires LaneOk(o, closed) && !o.queue.fifo.running
    ensures o.phases == [] && o.queue.fifo.packets == [] && o.queue.handled == o.queue.accepted && Settled(o) == o.acted
    ensures o.id.sid !in closed ==> o.acted == o.queue.accepted
  {
    assert o.queue.handled + [] + [] == o.queue.handled;
  }

  lemma NothingQueued(o: Lane, closed: set<string>)
    requires LaneOk(o, closed)
    ensures o.queue.handled + o.queue.busy != o.queue.accepted ==> o.queue.fifo.packets != []
  {
    var done := o.queue.handled + o.queue.busy;
    assert done + [] == done;
  }

  // ---- cleanups end ---------------------------------------------------------

  /** Steps of workers and cleanups lead from `After(steps)` to `s`. */
  ghost predicate Leads(steps: seq<Step>, s: State) {
    exists more :: NoArrivals(more) && After(steps + more) == s
  }

  predicate NoArrivals(more: seq<Step>) {
    forall step :: step in more ==> OfHandler(step) || OfProxyUse(step) || (OfCleaner(step) && !step.CloseArrives?)
  }

  lemma LeadsNowhere(steps: seq<Step>)
    ensures Leads(steps, After(steps))
  {
    assert steps + [] == steps;
    assert NoArrivals([]);
  }

  lemma LeadsOn(steps: seq<Step>, s: State, step: Step) returns (s': State)
    requires Leads(steps, s) && (OfHandler(step) || OfProxyUse(step) || (OfCleaner(step) && !step.CloseArrives?))
    ensures s' == Apply(s, step) && Leads(steps, s')
  {
    var more :| NoArrivals(more) && After(steps + more) == s;
    s' := Apply(s, step);
    assert (steps + (more + [step]))[..|steps + more|] == steps + more;
    assert NoArrivals(more + [step]) && After(steps + (more + [step])) == s';
  }

  lemma LeadsInv(steps: seq<Step>, s: State)
    requires Leads(steps, s)
    ensures Inv(s) && GoneInv(s)
  {
    var more :| NoArrivals(more) && After(steps + more) == s;
    InvAlways(steps + more);
    GoneAlways(steps + more);
  }

  lemma HandlerAdvances(steps: seq<Step>, s: State, l: nat) returns (s': State)
    requires Leads(steps, s) && l in s.lanes && Reads(s.lanes[l])
    ensures Leads(steps, s') && Worked(s, s', l)
  {
    LeadsInv(steps, s);
    assert LaneOk(s.lanes[l], s.closed);
    BusyOfConn(s.lanes[l], s.closed);
    WorkerHandles(s, l);
    HandlerCanWork(s, l);
    s' := LeadsOn(steps, s, NextOf(s, l));
  }

  /** A handler that holds the read lock gets to releasing it. */
  lemma HandlerLeaves(steps: seq<Step>, s: State, l: nat) returns (s': State)
    requires Leads(steps, s) && l in s.lanes && Reads(s.lanes[l])
    ensures Leads(steps, s') && s'.cleaners == s.cleaners
    ensures l in s'.lanes && s'.lanes == s.lanes[l := s'.lanes[l]] && s'.lanes[l].id == s.lanes[l].id && !Reads(s'.lanes[l])
    decreases LaneLeft(s.lanes[l])
  {
    s' := HandlerAdvances(steps, s, l);
    if Reads(s'.lanes[l]) {
      s' := HandlerLeaves(steps, s', l);
    }
  }

  /** The queue objects of a session whose handlers hold its read lock. */
  ghost function Reading(lanes: map<nat, Lane>, sid: string): set<nat> {
    set l | l in lanes && lanes[l].id.sid == sid && Reads(lanes[l])
  }

  lemma NobodyReads(s: State, sid: string)
    requires Inv(s) && Reading(s.lanes, sid) == {}
    ensures NoReader(s.lanes, sid)
  {
    forall l, i | l in s.lanes && 0 <= i < |s.lanes[l].phases| && i < |s.lanes[l].queue.busy|
      ensures HoldsRead(s.lanes[l].phases[i]) ==> s.lanes[l].queue.busy[i].sid != sid {
      assert LaneOk(s.lanes[l], s.closed) && l !in Reading(s.lanes, sid);
      BusyOfConn(s.lanes[l], s.closed);
    }
  }

  lemma HandlersLeave(steps: seq<Step>, s: State, sid: string) returns (s': State)
    requires Leads(steps, s)
    ensures Leads(steps, s') && s'.cleaners == s.cleaners && NoReader(s'.lanes, sid)
    decreases Reading(s.lanes, sid)
  {
    s' := s;
    if l :| l in Reading(s.lanes, sid) {
      s' := HandlerLeaves(steps, s, l);
      assert l !in Reading(s'.lanes, sid);
      s' := HandlersLeave(steps, s', sid);
    } else {
      LeadsInv(steps, s);
      NobodyReads(s, sid);
    }
  }

  function CleanLeft(p: CleanPhase): nat {
    match p
    case WantLock => 6
    case Locked => 5
    case Marked => 4
    case Sweeping(_) => 3
    case Dropping(_) => 2
    case Done => 0
  }

  function CleanTodo(p: CleanPhase): nat {
    match p
    case Sweeping(todo) => |todo|
    case Dropping(left) => |left|
    case _ => 0
  }

  ghost function NextClean(r: Cleaner, c: nat): Step {
    match r.phase
    case WantLock => Lock(c)
    case Locked => MarkClosed(c)
    case Marked => Snapshot(c)
    case Sweeping(todo) => if todo == {} then SweepDone(c) else var key :| key in todo; Sweep(c, key)
    case Dropping(left) => if left == {} then Unlock(c) else var slot :| slot in left; DropQueue(c, slot.0, slot.1)
    case Done => Unlock(c)
  }

  /** Cleanup `c` moved on, and nothing else but the store and the queue map changed. */
  ghost predicate Cleaned(s: State, s': State, c: nat)
    requires c in s.cleaners
  {
    && s'.lanes == s.lanes && c in s'.cleaners && s'.cleaners == s.cleaners[c := s'.cleaners[c]]
    && s'.cleaners[c].sid == s.cleaners[c].sid && !s'.cleaners[c].phase.WantLock?
    && var p, p' := s.cleaners[c].phase, s'.cleaners[c].phase;
    CleanLeft(p') < CleanLeft(p) || (CleanLeft(p') == CleanLeft(p) && CleanTodo(p') < CleanTodo(p))
  }

  lemma CleanupSweeps(s: State, c: nat)
    requires c in s.cleaners && s.cleaners[c].phase.Sweeping?
    ensures Enabled(s, NextClean(s.cleaners[c], c)) && Cleaned(s, Apply(s, NextClean(s.cleaners[c], c)), c)
  {
  }

  lemma CleanupDropsNext(s: State, c: nat)
    requires c in s.cleaners && s.cleaners[c].phase.Dropping? && GoneAt(s, c)
    ensures Enabled(s, NextClean(s.cleaners[c], c)) && Cleaned(s, Apply(s, NextClean(s.cleaners[c], c)), c)
  {
  }

  lemma CleanupMoves(s: State, c: nat)
    requires c in s.cleaners && HoldsWrite(s.cleaners[c].phase) && GoneAt(s, c)
    ensures Enabled(s, NextClean(s.cleaners[c], c)) && Cleaned(s, Apply(s, NextClean(s.cleaners[c], c)), c)
  {
    if s.cleaners[c].phase.Sweeping? {
      CleanupSweeps(s, c);
    } else if s.cleaners[c].phase.Dropping? {
      CleanupDropsNext(s, c);
    }
  }

  /** A cleanup that holds the lock runs to its end. */
  lemma CleanupEnds(steps: seq<Step>, s: State, c: nat) returns (s': State)
    requires Leads(steps, s) && c in s.cleaners && HoldsWrite(s.cleaners[c].phase)
    ensures Leads(steps, s') && s'.lanes == s.lanes && s'.cleaners == s.cleaners[c := Cleaner(s.cleaners[c].sid, Done)]
    decreases CleanLeft(s.cleaners[c].phase), CleanTodo(s.cleaners[c].phase)
  {
    LeadsInv(steps, s);
    assert GoneAt(s, c);
    CleanupMoves(s, c);
    s' := LeadsOn(steps, s, NextClean(s.cleaners[c], c));
    if !s'.cleaners[c].phase.Done? {
      s' := CleanupEnds(steps, s', c);
    }
  }

  /** The cleanups of a session that hold its lock. */
  function Writers(cleaners: map<nat, Cleaner>, sid: string): set<nat> {
    set c | c in cleaners && cleaners[c].sid == sid && HoldsWrite(cleaners[c].phase)
  }

  lemma WritersEnd(steps: seq<Step>, s: State, sid: string) returns (s': State)
    requires Leads(steps, s)
    ensures Leads(steps, s') && NoWriter(s'.cleaners, sid) && s'.cleaners.Keys == s.cleaners.Keys
    ensures forall c :: c in s.cleaners && s.cleaners[c].phase.WantLock? ==> s'.cleaners[c] == s.cleaners[c]
    decreases Writers(s.cleaners, sid)
  {
    s' := s;
    if c :| c in Writers(s.cleaners, sid) {
      s' := CleanupEnds(steps, s, c);
      assert c !in Writers(s'.cleaners, sid);
      s' := WritersEnd(steps, s', sid);
    } else {
      assert forall c :: c in s.cleaners ==> c !in Writers(s.cleaners, sid);
    }
  }

  /** Every cleanup can end: from every reachable state, steps of the workers and the
      cleanups already under way bring it there. */
  lemma {:induction false} CleanupCanEnd(steps: seq<Step>, c: nat)
    requires c in After(steps).cleaners
    ensures exists more :: NoArrivals(more)
              && c in After(steps + more).cleaners && After(steps + more).cleaners[c].phase.Done?
  {
    LeadsNowhere(steps);
    var s := After(steps);
    if s.cleaners[c].phase.WantLock? {
      s := WritersEnd(steps, s, s.cleaners[c].sid);
      s := HandlersLeave(steps, s, s.cleaners[c].sid);
      s := LeadsOn(steps, s, Lock(c));
    }
    if !s.cleaners[c].phase.Done? {
      s := CleanupEnds(steps, s, c);
    }
    var more :| NoArrivals(more) && After(steps + more) == s;
  }
}
