/** The recv loop, the SSH and MCP drain workers and session cleanup, run
    concurrently (agent/controller/agent.go, ssh.go, mcpproxy.go).

    A step is one atomic action of one goroutine: a map operation, one locked
    section of a packet queue, or acquiring or releasing the session lock. Any
    number of sessions, connections, queues, workers and cleanups exist at once. */
module SessionTeardown {
  import opened Prelude
  import opened Keys
  import Q = PacketQueues

  type Packet = Q.Packet

  datatype Kind = Ssh | Mcp

  /** A connection of one protocol. */
  datatype Id = Id(kind: Kind, sid: string, conn: string)

  /** What the handler of a packet is doing. From `Checking` on it holds the
      session read lock; in `Active`, `Built` and `Writing` it can have effect. */
  datatype Phase = Waiting | Checking | Active | Built | Writing | Leaving

  /** A packet written to the proxy under a key of the connection store. */
  datatype Write = Write(packet: Packet, key: string)

  /** A queue object. Worker `i` is handling `queue.busy[i]` and is in `phases[i]`. */
  datatype Lane = Lane(
    id: Id,
    queue: Q.Queue,
    phases: seq<Phase>,
    // history
    acted: seq<Packet>,      // the packets whose handler found the session open
    written: seq<Write>,     // those of them that were written
    refused: seq<Packet>,    // and those whose handler gave up
    offered: seq<Packet>,    // the packets the recv loop pushed
    overflowed: bool)        // one of them did not fit

  function NewLane(id: Id): Lane {
    Lane(id, Q.START, [], [], [], [], [], false)
  }

  /** The connection store holds proxies registered by SSH and MCP handlers, and
      whatever the rest of the agent puts there. */
  datatype Entry = Proxy(id: Id) | Foreign

  datatype Recv = Idle | Loaded(lane: nat, pkt: Packet)

  /** `left` are the queues cleanup found and has yet to drop. */
  datatype CleanPhase = WantLock | Locked | Marked | Sweeping(todo: set<string>) | Dropping(left: set<(Kind, string)>) | Done

  datatype Cleaner = Cleaner(sid: string, phase: CleanPhase)

  datatype State = State(
    recv: Recv,
    queues: map<(Kind, string), nat>,  // sshWriteQueues and mcpProxyQueues
    lanes: map<nat, Lane>,             // every queue object ever made
    cleaners: map<nat, Cleaner>,
    store: map<string, Entry>,
    closed: set<string>)

  const START := State(Idle, map[], map[], map[], map[], {})

  datatype Step =
    | RecvLoad(id: Id, payload: seq<Byte>, newLane: nat)
    | RecvPush
    | Fetch(lane: nat)
    | RLock(lane: nat, i: nat)
    | CheckClosed(lane: nat, i: nat)
    | GiveUp(lane: nat, i: nat)
    | FindProxy(lane: nat, i: nat)
    | BuildProxy(lane: nat, i: nat)
    | Register(lane: nat, i: nat)
    | WriteDone(lane: nat, i: nat, failed: bool)
    | RUnlock(lane: nat, i: nat)
    | CloseArrives(cleaner: nat, sid: string)
    | Lock(cleaner: nat)
    | MarkClosed(cleaner: nat)
    | Snapshot(cleaner: nat)
    | Sweep(cleaner: nat, key: string)
    | SweepDone(cleaner: nat)
    | DropQueue(cleaner: nat, kind: Kind, key: string)
    | Unlock(cleaner: nat)
    | OtherDel(key: string)
    | OtherSet(key: string)

  function KeyOf(id: Id): string {
    Key(id.sid, id.conn)
  }

  predicate HoldsRead(p: Phase) {
    !p.Waiting?
  }

  predicate Effective(p: Phase) {
    p.Active? || p.Built? || p.Writing?
  }

  predicate HoldsWrite(p: CleanPhase) {
    !p.WantLock? && !p.Done?
  }

  /** No handler of `sid` holds the read lock. */
  ghost predicate NoReader(lanes: map<nat, Lane>, sid: string) {
    forall l, i | l in lanes && 0 <= i < |lanes[l].phases| && i < |lanes[l].queue.busy| ::
      HoldsRead(lanes[l].phases[i]) ==> lanes[l].queue.busy[i].sid != sid
  }

  ghost predicate NoWriter(cleaners: map<nat, Cleaner>, sid: string) {
    forall c | c in cleaners :: HoldsWrite(cleaners[c].phase) ==> cleaners[c].sid != sid
  }

  ghost predicate In(s: State, l: nat, i: nat, p: Phase) {
    l in s.lanes && i < |s.lanes[l].phases| && i < |s.lanes[l].queue.busy| && s.lanes[l].phases[i] == p
  }

  ghost predicate Cleaning(s: State, c: nat, p: CleanPhase) {
    c in s.cleaners && s.cleaners[c].phase == p
  }

  /** The packet worker `i` of `l` is handling, and its connection. */
  function PacketOf(s: State, l: nat, i: nat): Packet
    requires l in s.lanes && i < |s.lanes[l].queue.busy|
  {
    s.lanes[l].queue.busy[i]
  }

  function IdOf(s: State, l: nat, i: nat): Id
    requires l in s.lanes && i < |s.lanes[l].queue.busy|
  {
    Id(s.lanes[l].id.kind, PacketOf(s, l, i).sid, PacketOf(s, l, i).conn)
  }

  ghost predicate Enabled(s: State, step: Step) {
    match step
    case RecvLoad(id, _, newLane) =>
      // session ids are colon-free; an MCP packet without a connection id is refused
      s.recv.Idle? && ColonFree(id.sid) && (id.kind.Mcp? ==> id.conn != "") && newLane !in s.lanes
    case RecvPush => s.recv.Loaded? && s.recv.lane in s.lanes
    case Fetch(l) => l in s.lanes && s.lanes[l].queue.idle > 0
    case RLock(l, i) => In(s, l, i, Waiting) && NoWriter(s.cleaners, PacketOf(s, l, i).sid)
    case CheckClosed(l, i) => In(s, l, i, Checking)
    case GiveUp(l, i) => In(s, l, i, Active)
    case FindProxy(l, i) => In(s, l, i, Active) && KeyOf(IdOf(s, l, i)) in s.store
    case BuildProxy(l, i) => In(s, l, i, Active) && KeyOf(IdOf(s, l, i)) !in s.store
    case Register(l, i) => In(s, l, i, Built)
    case WriteDone(l, i, _) => In(s, l, i, Writing)
    case RUnlock(l, i) => In(s, l, i, Leaving)
    case CloseArrives(c, sid) => c !in s.cleaners && ColonFree(sid) && sid != ""
    case Lock(c) => Cleaning(s, c, WantLock)
                    && NoReader(s.lanes, s.cleaners[c].sid) && NoWriter(s.cleaners, s.cleaners[c].sid)
    case MarkClosed(c) => Cleaning(s, c, Locked)
    case Snapshot(c) => Cleaning(s, c, Marked)
    case Sweep(c, key) => c in s.cleaners && s.cleaners[c].phase.Sweeping? && key in s.cleaners[c].phase.todo
    case SweepDone(c) => Cleaning(s, c, Sweeping({}))
    case DropQueue(c, _, key) =>
      c in s.cleaners && s.cleaners[c].phase.Dropping? && HasPrefix(key, s.cleaners[c].sid + ":")
    case Unlock(c) => Cleaning(s, c, Dropping({}))
    case OtherDel(_) => true
    case OtherSet(_) => true
  }

  ghost function SetPhase(s: State, l: nat, i: nat, p: Phase): State
    requires l in s.lanes && i < |s.lanes[l].phases|
  {
    s.(lanes := s.lanes[l := s.lanes[l].(phases := s.lanes[l].phases[i := p])])
  }

  function SetCleaner(s: State, c: nat, p: CleanPhase): State
    requires c in s.cleaners
  {
    s.(cleaners := s.cleaners[c := s.cleaners[c].(phase := p)])
  }

  function PushLane(o: Lane, p: Packet): Lane {
    o.(queue := Q.Apply(o.queue, Q.Arrive(p)), offered := o.offered + [p],
       overflowed := o.overflowed || Q.Overflows(o.queue.fifo, p))
  }

  function FetchLane(o: Lane): Lane {
    o.(queue := Q.Apply(o.queue, Q.Fetch),
       phases := if o.queue.fifo.packets == [] then o.phases else o.phases + [Waiting])
  }

  /** The handler reads the closed flag of its packet's session. */
  function CheckLane(o: Lane, i: nat, closed: set<string>): Lane
    requires i < |o.phases| && i < |o.queue.busy|
  {
    if o.queue.busy[i].sid in closed then o.(phases := o.phases[i := Leaving])
    else o.(phases := o.phases[i := Active], acted := o.acted + [o.queue.busy[i]])
  }

  function GiveUpLane(o: Lane, i: nat): Lane
    requires i < |o.phases| && i < |o.queue.busy|
  {
    o.(phases := o.phases[i := Leaving], refused := o.refused + [o.queue.busy[i]])
  }

  /** The handler writes its packet to the proxy under `key`. */
  function WriteLane(o: Lane, i: nat, key: string): Lane
    requires i < |o.phases| && i < |o.queue.busy|
  {
    o.(phases := o.phases[i := Writing], written := o.written + [Write(o.queue.busy[i], key)])
  }

  function FinishLane(o: Lane, i: nat): Lane
    requires i < |o.phases|
  {
    o.(queue := Q.Apply(o.queue, Q.Finish(i)), phases := o.phases[..i] + o.phases[i + 1..])
  }

  ghost function Apply(s: State, step: Step): State {
    if !Enabled(s, step) then s else
    match step
    case RecvLoad(id, payload, newLane) =>
      var slot, pkt := (id.kind, KeyOf(id)), Q.Packet(id.sid, id.conn, payload);
      if slot in s.queues then s.(recv := Loaded(s.queues[slot], pkt))
      else s.(recv := Loaded(newLane, pkt), queues := s.queues[slot := newLane],
              lanes := s.lanes[newLane := NewLane(id)])
    case RecvPush =>
      s.(recv := Idle, lanes := s.lanes[s.recv.lane := PushLane(s.lanes[s.recv.lane], s.recv.pkt)])
    case Fetch(l) => s.(lanes := s.lanes[l := FetchLane(s.lanes[l])])
    case RLock(l, i) => SetPhase(s, l, i, Checking)
    case CheckClosed(l, i) => s.(lanes := s.lanes[l := CheckLane(s.lanes[l], i, s.closed)])
    case GiveUp(l, i) => s.(lanes := s.lanes[l := GiveUpLane(s.lanes[l], i)])
    case FindProxy(l, i) => s.(lanes := s.lanes[l := WriteLane(s.lanes[l], i, KeyOf(IdOf(s, l, i)))])
    case BuildProxy(l, i) => SetPhase(s, l, i, Built)
    case Register(l, i) =>
      s.(lanes := s.lanes[l := WriteLane(s.lanes[l], i, KeyOf(IdOf(s, l, i)))],
         store := s.store[KeyOf(IdOf(s, l, i)) := Proxy(IdOf(s, l, i))])
    case WriteDone(l, i, failed) =>
      // only the MCP handler unregisters the proxy of a failed write
      SetPhase(s, l, i, Leaving)
        .(store := if failed && s.lanes[l].id.kind.Mcp? then s.store - {KeyOf(IdOf(s, l, i))} else s.store)
    case RUnlock(l, i) => s.(lanes := s.lanes[l := FinishLane(s.lanes[l], i)])
    case CloseArrives(c, sid) => s.(cleaners := s.cleaners[c := Cleaner(sid, WantLock)])
    case Lock(c) => SetCleaner(s, c, Locked)
    case MarkClosed(c) => SetCleaner(s, c, Marked).(closed := s.closed + {s.cleaners[c].sid})
    case Snapshot(c) => SetCleaner(s, c, Sweeping(set k | k in s.store && Contains(k, s.cleaners[c].sid)))
    case Sweep(c, key) =>
      SetCleaner(s, c, Sweeping(s.cleaners[c].phase.todo - {key})).(store := s.store - {key})
    case SweepDone(c) =>
      SetCleaner(s, c, Dropping(set slot | slot in s.queues && HasPrefix(slot.1, s.cleaners[c].sid + ":")))
    case DropQueue(c, kind, key) =>
      SetCleaner(s, c, Dropping(s.cleaners[c].phase.left - {(kind, key)})).(queues := s.queues - {(kind, key)})
    case Unlock(c) => SetCleaner(s, c, Done)
    case OtherDel(key) => s.(store := s.store - {key})
    case OtherSet(key) => s.(store := s.store[key := Foreign])
  }

  /** The agent after a run; a step that cannot happen leaves it alone, so every
      list of steps is a run. */
  ghost function After(steps: seq<Step>): State {
    if steps == [] then START
    else Apply(After(steps[..|steps| - 1]), steps[|steps| - 1])
  }

  // ---- the invariant --------------------------------------------------------

  ghost predicate OfConn(id: Id, p: Packet) {
    p.sid == id.sid && p.conn == id.conn
  }

  /** The packets a lane's handlers have decided on, in the order taken. */
  function Decided(o: Lane): seq<Packet> {
    if o.phases == [] || o.phases[0].Waiting? || o.phases[0].Checking? then o.queue.handled
    else o.queue.handled + o.queue.busy
  }

  ghost predicate LaneOk(o: Lane, closed: set<string>) {
    && Q.Orderly(o.queue)
    && |o.phases| == |o.queue.busy|
    && ColonFree(o.id.sid)
    && (forall i :: 0 <= i < |o.queue.accepted| ==> OfConn(o.id, o.queue.accepted[i]))
    && o.acted <= o.queue.accepted
    && (o.id.sid !in closed ==> o.acted == Decided(o))
    && (forall i :: 0 <= i < |o.phases| && Effective(o.phases[i]) ==> o.id.sid !in closed)
  }

  ghost predicate LanesOk(lanes: map<nat, Lane>, closed: set<string>) {
    && (forall l :: l in lanes ==> LaneOk(lanes[l], closed))
    && (forall l, l' | l in lanes && l' in lanes && l != l' ::
          lanes[l].id == lanes[l'].id && lanes[l].acted != [] ==> lanes[l'].acted == [])
  }

  ghost predicate RecvOk(recv: Recv, lanes: map<nat, Lane>) {
    recv.Loaded? ==> recv.lane in lanes && OfConn(lanes[recv.lane].id, recv.pkt)
  }

  /** While a session is open each of its connections has one queue object, the
      one in the map. */
  ghost predicate MapsOk(lanes: map<nat, Lane>, queues: map<(Kind, string), nat>, closed: set<string>) {
    && (forall l :: l in lanes && lanes[l].id.sid !in closed ==>
          (lanes[l].id.kind, KeyOf(lanes[l].id)) in queues
          && queues[(lanes[l].id.kind, KeyOf(lanes[l].id))] == l)
    && (forall slot :: slot in queues ==>
          && queues[slot] in lanes
          && slot == (lanes[queues[slot]].id.kind, KeyOf(lanes[queues[slot]].id)))
  }

  /** The write lock excludes handlers; past `Locked` the session is closed. */
  ghost predicate LocksOk(lanes: map<nat, Lane>, cleaners: map<nat, Cleaner>, closed: set<string>) {
    forall c :: c in cleaners ==>
      && ColonFree(cleaners[c].sid)
      && (HoldsWrite(cleaners[c].phase) ==> NoReader(lanes, cleaners[c].sid))
      && (!cleaners[c].phase.WantLock? && !cleaners[c].phase.Locked? ==> cleaners[c].sid in closed)
  }

  /** Session `sid` has no proxy registered outside `keys`. */
  ghost predicate OnlyIn(store: map<string, Entry>, sid: string, keys: set<string>) {
    forall k :: k in store && store[k].Proxy? && store[k].id.sid == sid ==> k in keys
  }

  ghost predicate StoreOk(store: map<string, Entry>, cleaners: map<nat, Cleaner>) {
    && (forall k :: k in store && store[k].Proxy? ==> k == KeyOf(store[k].id))
    && (forall c :: c in cleaners ==>
          && (cleaners[c].phase.Sweeping? ==> OnlyIn(store, cleaners[c].sid, cleaners[c].phase.todo))
          && (cleaners[c].phase.Dropping? || cleaners[c].phase.Done? ==> OnlyIn(store, cleaners[c].sid, {})))
  }

  ghost predicate Inv(s: State) {
    && LanesOk(s.lanes, s.closed)
    && RecvOk(s.recv, s.lanes)
    && MapsOk(s.lanes, s.queues, s.closed)
    && LocksOk(s.lanes, s.cleaners, s.closed)
    && StoreOk(s.store, s.cleaners)
  }

  // ---- each step keeps it ---------------------------------------------------

  lemma BusyOfConn(o: Lane, closed: set<string>)
    requires LaneOk(o, closed)
    ensures forall i :: 0 <= i < |o.queue.busy| ==> OfConn(o.id, o.queue.busy[i])
    ensures |o.phases| <= 1
  {
    forall i | 0 <= i < |o.queue.busy| ensures OfConn(o.id, o.queue.busy[i]) {
      assert o.queue.busy[i] == o.queue.accepted[|o.queue.handled| + i];
    }
  }

  /** Some handler of the queue object holds the read lock. */
  ghost predicate Reads(o: Lane) {
    exists i :: 0 <= i < |o.phases| && HoldsRead(o.phases[i])
  }

  /** Replacing one queue object by a good one of the same connection, whose
      handler holds the read lock only if one already did or no cleanup is in. */
  lemma ReplaceLane(s: State, l: nat, o: Lane)
    requires Inv(s) && l in s.lanes && o.id == s.lanes[l].id && LaneOk(o, s.closed)
    requires o.acted == s.lanes[l].acted || o.id.sid !in s.closed
    requires Reads(o) ==> NoWriter(s.cleaners, o.id.sid) || Reads(s.lanes[l])
    ensures Inv(s.(lanes := s.lanes[l := o]))
  {
    var lanes := s.lanes[l := o];
    ReplaceLanesOk(s, l, o);
    ReplaceMapsOk(s, l, o);
    assert LocksOk(lanes, s.cleaners, s.closed) by {
      forall c | c in s.cleaners && HoldsWrite(s.cleaners[c].phase) ensures NoReader(lanes, s.cleaners[c].sid) {
        assert NoReader(s.lanes, s.cleaners[c].sid);
        ReplaceNoReader(s.lanes, s.closed, l, o, s.cleaners[c].sid);
      }
    }
  }

  lemma ReplaceLanesOk(s: State, l: nat, o: Lane)
    requires LanesOk(s.lanes, s.closed) && MapsOk(s.lanes, s.queues, s.closed)
    requires l in s.lanes && o.id == s.lanes[l].id && LaneOk(o, s.closed)
    requires o.acted == s.lanes[l].acted || o.id.sid !in s.closed
    ensures LanesOk(s.lanes[l := o], s.closed)
  {
    assert o.id.sid !in s.closed ==> forall l' :: l' in s.lanes && l' != l ==> o.id != s.lanes[l'].id;
  }

  lemma ReplaceMapsOk(s: State, l: nat, o: Lane)
    requires MapsOk(s.lanes, s.queues, s.closed) && l in s.lanes && o.id == s.lanes[l].id
    ensures MapsOk(s.lanes[l := o], s.queues, s.closed)
  {
  }

  lemma ReplaceNoReader(lanes: map<nat, Lane>, closed: set<string>, l: nat, o: Lane, sid: string)
    requires l in lanes && LaneOk(lanes[l], closed) && LaneOk(o, closed) && o.id == lanes[l].id
    requires NoReader(lanes, sid)
    requires Reads(o) ==> o.id.sid != sid || Reads(lanes[l])
    ensures NoReader(lanes[l := o], sid)
  {
    BusyOfConn(lanes[l], closed);
    BusyOfConn(o, closed);
  }

  lemma PushKeeps(s: State)
    requires Inv(s) && Enabled(s, RecvPush)
    ensures Inv(Apply(s, RecvPush))
  {
    PushLaneOk(s.lanes[s.recv.lane], s.recv.pkt, s.closed);
    ReplaceLane(s, s.recv.lane, PushLane(s.lanes[s.recv.lane], s.recv.pkt));
  }

  lemma PushLaneOk(o: Lane, p: Packet, closed: set<string>)
    requires LaneOk(o, closed) && OfConn(o.id, p)
    ensures LaneOk(PushLane(o, p), closed)
  {
    var o' := PushLane(o, p);
    Q.OrderlyStep(o.queue, Q.Arrive(p));
    PushedQueue(o.queue, p);
    assert Decided(o') == Decided(o);
    assert forall i | 0 <= i < |o.queue.accepted| :: o'.queue.accepted[i] == o.queue.accepted[i];
  }

  lemma PushedQueue(q: Q.Queue, p: Packet)
    ensures var q' := Q.Apply(q, Q.Arrive(p));
            && q'.handled == q.handled && q'.busy == q.busy && q.accepted <= q'.accepted
            && (q'.accepted == q.accepted || q'.accepted == q.accepted + [p])
  {
  }

  lemma FetchKeeps(s: State, l: nat)
    requires Inv(s) && Enabled(s, Fetch(l))
    ensures Inv(Apply(s, Fetch(l)))
  {
    FetchLaneOk(s.lanes[l], s.closed);
    ReplaceLane(s, l, FetchLane(s.lanes[l]));
  }

  lemma FetchLaneOk(o: Lane, closed: set<string>)
    requires LaneOk(o, closed) && o.queue.idle > 0
    ensures LaneOk(FetchLane(o), closed)
  {
    Q.OrderlyStep(o.queue, Q.Fetch);
  }

  lemma FinishKeeps(s: State, l: nat, i: nat)
    requires Inv(s) && Enabled(s, RUnlock(l, i))
    ensures Inv(Apply(s, RUnlock(l, i)))
  {
    var o := s.lanes[l];
    BusyOfConn(o, s.closed);
    Q.OrderlyStep(o.queue, Q.Finish(i));
    ReplaceLane(s, l, FinishLane(o, i));
  }

  lemma LoadKeeps(s: State, id: Id, payload: seq<Byte>, newLane: nat)
    requires Inv(s) && Enabled(s, RecvLoad(id, payload, newLane))
    ensures Inv(Apply(s, RecvLoad(id, payload, newLane)))
  {
    forall l | l in s.lanes
      ensures KeyOf(id) == KeyOf(s.lanes[l].id) <==> id.sid == s.lanes[l].id.sid && id.conn == s.lanes[l].id.conn
    {
      QueueFilterIsExact(id.sid, s.lanes[l].id.sid, s.lanes[l].id.conn);
    }
    if (id.kind, KeyOf(id)) !in s.queues {
      NewLaneKeeps(s, id, newLane);
    }
  }

  lemma NewLaneKeeps(s: State, id: Id, newLane: nat)
    requires Inv(s) && ColonFree(id.sid) && newLane !in s.lanes && (id.kind, KeyOf(id)) !in s.queues
    ensures Inv(s.(lanes := s.lanes[newLane := NewLane(id)],
                   queues := s.queues[(id.kind, KeyOf(id)) := newLane]))
  {
    var o := NewLane(id);
    var lanes := s.lanes[newLane := o];
    assert LaneOk(o, s.closed);
    assert LanesOk(lanes, s.closed);
    forall c | c in s.cleaners && HoldsWrite(s.cleaners[c].phase) ensures NoReader(lanes, s.cleaners[c].sid) {
      assert NoReader(s.lanes, s.cleaners[c].sid);
    }
  }

  /** Steps in which a handler that already holds the read lock moves on without
      deciding anything new about the session. */
  lemma PhaseKeeps(s: State, l: nat, i: nat, p: Phase, o: Lane)
    requires Inv(s) && l in s.lanes && i < |s.lanes[l].phases|
    requires Effective(s.lanes[l].phases[i]) && !p.Waiting? && !p.Checking?
    requires o == s.lanes[l].(phases := s.lanes[l].phases[i := p], written := o.written, refused := o.refused)
    ensures Inv(s.(lanes := s.lanes[l := o]))
  {
    BusyOfConn(s.lanes[l], s.closed);
    ReplaceLane(s, l, o);
  }

  lemma GiveUpKeeps(s: State, l: nat, i: nat)
    requires Inv(s) && Enabled(s, GiveUp(l, i))
    ensures Inv(Apply(s, GiveUp(l, i)))
  {
    PhaseKeeps(s, l, i, Leaving, GiveUpLane(s.lanes[l], i));
  }

  lemma FindKeeps(s: State, l: nat, i: nat)
    requires Inv(s) && Enabled(s, FindProxy(l, i))
    ensures Inv(Apply(s, FindProxy(l, i)))
  {
    PhaseKeeps(s, l, i, Writing, WriteLane(s.lanes[l], i, KeyOf(IdOf(s, l, i))));
  }

  lemma BuildKeeps(s: State, l: nat, i: nat)
    requires Inv(s) && Enabled(s, BuildProxy(l, i))
    ensures Inv(Apply(s, BuildProxy(l, i)))
  {
    PhaseKeeps(s, l, i, Built, s.lanes[l].(phases := s.lanes[l].phases[i := Built]));
  }

  lemma RLockKeeps(s: State, l: nat, i: nat)
    requires Inv(s) && Enabled(s, RLock(l, i))
    ensures Inv(Apply(s, RLock(l, i)))
  {
    BusyOfConn(s.lanes[l], s.closed);
    ReplaceLane(s, l, s.lanes[l].(phases := s.lanes[l].phases[i := Checking]));
  }

  lemma ActivateOk(o: Lane, closed: set<string>)
    requires LaneOk(o, closed) && o.phases == [Checking] && o.id.sid !in closed
    ensures LaneOk(o.(phases := [Active], acted := o.acted + o.queue.busy), closed)
  {
  }

  lemma CheckKeeps(s: State, l: nat, i: nat)
    requires Inv(s) && Enabled(s, CheckClosed(l, i))
    ensures Inv(Apply(s, CheckClosed(l, i)))
  {
    var o := s.lanes[l];
    BusyOfConn(o, s.closed);
    if PacketOf(s, l, i).sid in s.closed {
      ReplaceLane(s, l, o.(phases := o.phases[i := Leaving]));
    } else {
      assert o.queue.busy == [PacketOf(s, l, i)] && o.phases == [Checking] && o.phases[i := Active] == [Active];
      ActivateOk(o, s.closed);
      ReplaceLane(s, l, o.(phases := [Active], acted := o.acted + o.queue.busy));
    }
  }

  /** Removing an entry, or adding a foreign one, registers no proxy. */
  lemma ShrinkStore(s: State, store: map<string, Entry>)
    requires Inv(s)
    requires forall k :: k in store && store[k].Proxy? ==> k in s.store && store[k] == s.store[k]
    ensures Inv(s.(store := store))
  {
    forall c | c in s.cleaners && s.cleaners[c].phase.Sweeping?
      ensures OnlyIn(store, s.cleaners[c].sid, s.cleaners[c].phase.todo) {
      assert OnlyIn(s.store, s.cleaners[c].sid, s.cleaners[c].phase.todo);
    }
    forall c | c in s.cleaners && (s.cleaners[c].phase.Dropping? || s.cleaners[c].phase.Done?)
      ensures OnlyIn(store, s.cleaners[c].sid, {}) {
      assert OnlyIn(s.store, s.cleaners[c].sid, {});
    }
  }

  lemma RegisterKeeps(s: State, l: nat, i: nat)
    requires Inv(s) && Enabled(s, Register(l, i))
    ensures Inv(Apply(s, Register(l, i)))
  {
    PhaseKeeps(s, l, i, Writing, WriteLane(s.lanes[l], i, KeyOf(IdOf(s, l, i))));
    BusyOfConn(s.lanes[l], s.closed);
    RegisterStore(s.store, s.cleaners, s.closed, IdOf(s, l, i));
  }

  /** A proxy of an open session can be registered: every cleanup that looks at
      the store is of a closed one. */
  lemma RegisterStore(store: map<string, Entry>, cleaners: map<nat, Cleaner>, closed: set<string>, id: Id)
    requires StoreOk(store, cleaners) && id.sid !in closed
    requires forall c :: c in cleaners && !cleaners[c].phase.WantLock? && !cleaners[c].phase.Locked? ==>
               cleaners[c].sid in closed
    ensures StoreOk(store[KeyOf(id) := Proxy(id)], cleaners)
  {
    forall c | c in cleaners && cleaners[c].phase.Sweeping?
      ensures OnlyIn(store[KeyOf(id) := Proxy(id)], cleaners[c].sid, cleaners[c].phase.todo) {
      assert OnlyIn(store, cleaners[c].sid, cleaners[c].phase.todo);
    }
    forall c | c in cleaners && (cleaners[c].phase.Dropping? || cleaners[c].phase.Done?)
      ensures OnlyIn(store[KeyOf(id) := Proxy(id)], cleaners[c].sid, {}) {
      assert OnlyIn(store, cleaners[c].sid, {});
    }
  }

  lemma WriteDoneKeeps(s: State, l: nat, i: nat, failed: bool)
    requires Inv(s) && Enabled(s, WriteDone(l, i, failed))
    ensures Inv(Apply(s, WriteDone(l, i, failed)))
  {
    PhaseKeeps(s, l, i, Leaving, s.lanes[l].(phases := s.lanes[l].phases[i := Leaving]));
    ShrinkStore(SetPhase(s, l, i, Leaving), Apply(s, WriteDone(l, i, failed)).store);
  }

  /** A cleanup advancing without touching the store or closing a session. */
  lemma CleanerKeeps(s: State, c: nat, p: CleanPhase)
    requires Inv(s) && c in s.cleaners
    requires HoldsWrite(p) && !HoldsWrite(s.cleaners[c].phase) ==> NoReader(s.lanes, s.cleaners[c].sid)
    requires !p.WantLock? && !p.Locked? ==> s.cleaners[c].sid in s.closed
    requires p.Sweeping? ==> OnlyIn(s.store, s.cleaners[c].sid, p.todo)
    requires p.Dropping? || p.Done? ==> OnlyIn(s.store, s.cleaners[c].sid, {})
    ensures Inv(SetCleaner(s, c, p))
  {
  }

  lemma LockKeeps(s: State, c: nat)
    requires Inv(s) && Enabled(s, Lock(c))
    ensures Inv(Apply(s, Lock(c)))
  {
    CleanerKeeps(s, c, Locked);
  }

  lemma SweepDoneKeeps(s: State, c: nat)
    requires Inv(s) && Enabled(s, SweepDone(c))
    ensures Inv(Apply(s, SweepDone(c)))
  {
    CleanerKeeps(s, c, Apply(s, SweepDone(c)).cleaners[c].phase);
  }

  lemma UnlockKeeps(s: State, c: nat)
    requires Inv(s) && Enabled(s, Unlock(c))
    ensures Inv(Apply(s, Unlock(c)))
  {
    CleanerKeeps(s, c, Done);
  }

  lemma ArriveKeeps(s: State, c: nat, sid: string)
    requires Inv(s) && Enabled(s, CloseArrives(c, sid))
    ensures Inv(Apply(s, CloseArrives(c, sid)))
  {
  }

  lemma MarkKeeps(s: State, c: nat)
    requires Inv(s) && Enabled(s, MarkClosed(c))
    ensures Inv(Apply(s, MarkClosed(c)))
  {
    var sid := s.cleaners[c].sid;
    assert NoReader(s.lanes, sid);
    CloseLanes(s.lanes, s.closed, sid);
    assert MapsOk(s.lanes, s.queues, s.closed + {sid});
  }

  /** With nobody holding its read lock a session can be closed. */
  lemma CloseLanes(lanes: map<nat, Lane>, closed: set<string>, sid: string)
    requires LanesOk(lanes, closed) && NoReader(lanes, sid)
    ensures LanesOk(lanes, closed + {sid})
  {
    forall l | l in lanes ensures LaneOk(lanes[l], closed + {sid}) {
      BusyOfConn(lanes[l], closed);
    }
  }

  lemma SnapshotKeeps(s: State, c: nat)
    requires Inv(s) && Enabled(s, Snapshot(c))
    ensures Inv(Apply(s, Snapshot(c)))
  {
    var todo := set k | k in s.store && Contains(k, s.cleaners[c].sid);
    forall k | k in s.store && s.store[k].Proxy? && s.store[k].id.sid == s.cleaners[c].sid ensures k in todo {
      StoreFilterCovers(s.store[k].id.sid, s.store[k].id.conn);
    }
    CleanerKeeps(s, c, Sweeping(todo));
  }

  lemma SweepKeeps(s: State, c: nat, key: string)
    requires Inv(s) && Enabled(s, Sweep(c, key))
    ensures Inv(Apply(s, Sweep(c, key)))
  {
    ShrinkStore(s, s.store - {key});
    CleanerKeeps(s.(store := s.store - {key}), c, Sweeping(s.cleaners[c].phase.todo - {key}));
  }

  lemma DropKeeps(s: State, c: nat, kind: Kind, key: string)
    requires Inv(s) && Enabled(s, DropQueue(c, kind, key))
    ensures Inv(Apply(s, DropQueue(c, kind, key)))
  {
    forall l | l in s.lanes
      ensures key == KeyOf(s.lanes[l].id) ==> s.lanes[l].id.sid == s.cleaners[c].sid
    {
      QueueFilterIsExact(s.cleaners[c].sid, s.lanes[l].id.sid, s.lanes[l].id.conn);
    }
    CleanerKeeps(s, c, Apply(s, DropQueue(c, kind, key)).cleaners[c].phase);
    assert MapsOk(s.lanes, s.queues - {(kind, key)}, s.closed);
  }

  predicate OfHandler(step: Step) {
    step.RLock? || step.CheckClosed? || step.GiveUp? || step.RUnlock?
  }

  lemma HandlerStepKeeps(s: State, step: Step)
    requires Inv(s) && Enabled(s, step) && OfHandler(step)
    ensures Inv(Apply(s, step))
  {
    match step
    case RLock(l, i) => RLockKeeps(s, l, i);
    case CheckClosed(l, i) => CheckKeeps(s, l, i);
    case GiveUp(l, i) => GiveUpKeeps(s, l, i);
    case RUnlock(l, i) => FinishKeeps(s, l, i);
  }

  predicate OfProxyUse(step: Step) {
    step.FindProxy? || step.BuildProxy? || step.Register? || step.WriteDone?
  }

  lemma ProxyUseStepKeeps(s: State, step: Step)
    requires Inv(s) && Enabled(s, step) && OfProxyUse(step)
    ensures Inv(Apply(s, step))
  {
    match step
    case FindProxy(l, i) => FindKeeps(s, l, i);
    case BuildProxy(l, i) => BuildKeeps(s, l, i);
    case Register(l, i) => RegisterKeeps(s, l, i);
    case WriteDone(l, i, failed) => WriteDoneKeeps(s, l, i, failed);
  }

  predicate OfCleaner(step: Step) {
    step.CloseArrives? || step.Lock? || step.MarkClosed? || step.Snapshot? || step.Sweep?
    || step.SweepDone? || step.DropQueue? || step.Unlock?
  }

  lemma CleanerStepKeeps(s: State, step: Step)
    requires Inv(s) && Enabled(s, step) && OfCleaner(step) && !OfSweep(step)
    ensures Inv(Apply(s, step))
  {
    match step
    case CloseArrives(c, sid) => ArriveKeeps(s, c, sid);
    case Lock(c) => LockKeeps(s, c);
    case MarkClosed(c) => MarkKeeps(s, c);
    case Snapshot(c) => SnapshotKeeps(s, c);
  }

  predicate OfSweep(step: Step) {
    step.Sweep? || step.SweepDone? || step.DropQueue? || step.Unlock?
  }

  lemma SweepStepKeeps(s: State, step: Step)
    requires Inv(s) && Enabled(s, step) && OfSweep(step)
    ensures Inv(Apply(s, step))
  {
    match step
    case Sweep(c, key) => SweepKeeps(s, c, key);
    case SweepDone(c) => SweepDoneKeeps(s, c);
    case DropQueue(c, kind, key) => DropKeeps(s, c, kind, key);
    case Unlock(c) => UnlockKeeps(s, c);
  }

  lemma InvStep(s: State, step: Step)
    requires Inv(s)
    ensures Inv(Apply(s, step))
  {
    if Enabled(s, step) {
      if OfHandler(step) {
        HandlerStepKeeps(s, step);
      } else if OfProxyUse(step) {
        ProxyUseStepKeeps(s, step);
      } else if OfSweep(step) {
        SweepStepKeeps(s, step);
      } else if OfCleaner(step) {
        CleanerStepKeeps(s, step);
      } else {
        match step
        case RecvLoad(id, payload, newLane) => LoadKeeps(s, id, payload, newLane);
        case RecvPush => PushKeeps(s);
        case Fetch(l) => FetchKeeps(s, l);
        case OtherDel(key) => ShrinkStore(s, s.store - {key});
        case OtherSet(key) => ShrinkStore(s, s.store[key := Foreign]);
      }
    }
  }

  lemma {:induction false} InvAlways(steps: seq<Step>)
    ensures Inv(After(steps))
  {
    if steps != [] {
      InvAlways(steps[..|steps| - 1]);
      InvStep(After(steps[..|steps| - 1]), steps[|steps| - 1]);
    }
  }

  // ---- what it gives --------------------------------------------------------

  /** In every interleaving at most one handler of a connection can have effect,
      even when late packets made further queues and workers for its key. */
  lemma {:induction false} AtMostOneEffectiveHandler(steps: seq<Step>, l: nat, i: nat, l': nat, i': nat)
    requires var s := After(steps);
             && l in s.lanes && i < |s.lanes[l].phases| && Effective(s.lanes[l].phases[i])
             && l' in s.lanes && i' < |s.lanes[l'].phases| && Effective(s.lanes[l'].phases[i'])
             && s.lanes[l].id == s.lanes[l'].id
    ensures l == l' && i == i'
  {
    InvAlways(steps);
    BusyOfConn(After(steps).lanes[l], After(steps).closed);
    BusyOfConn(After(steps).lanes[l'], After(steps).closed);
  }

  /** Only one queue object of a connection ever acts, and the packets it acts on
      are a prefix of the packets it accepted: in arrival order, none skipped. */
  lemma {:induction false} ActsInArrivalOrder(steps: seq<Step>, l: nat)
    requires l in After(steps).lanes
    ensures After(steps).lanes[l].acted <= After(steps).lanes[l].queue.accepted
    ensures forall l' | l' in After(steps).lanes && l' != l ::
              After(steps).lanes[l'].id == After(steps).lanes[l].id && After(steps).lanes[l].acted != [] ==>
                After(steps).lanes[l'].acted == []
  {
    InvAlways(steps);
  }

  /** A handler that registers a proxy does so while its session is open. */
  lemma {:induction false} RegistersOnlyWhileOpen(steps: seq<Step>, l: nat, i: nat)
    requires Enabled(After(steps), Register(l, i))
    ensures IdOf(After(steps), l, i).sid !in After(steps).closed
  {
    InvAlways(steps);
    BusyOfConn(After(steps).lanes[l], After(steps).closed);
  }

  /** Once a cleanup of the session has swept the store, no proxy an SSH or MCP
      handler registered for it is there, then or ever after. */
  lemma {:induction false} NothingRegisteredAfterCleanup(steps: seq<Step>, c: nat, k: string)
    requires var s := After(steps);
             && c in s.cleaners && (s.cleaners[c].phase.Dropping? || s.cleaners[c].phase.Done?)
             && k in s.store && s.store[k].Proxy?
    ensures After(steps).store[k].id.sid != After(steps).cleaners[c].sid
  {
    InvAlways(steps);
    assert OnlyIn(After(steps).store, After(steps).cleaners[c].sid, {});
  }

  /** From `s` to `s'` no queue object of `sid` acted on another packet and no
      proxy was registered for it. */
  ghost predicate Frozen(s: State, s': State, sid: string) {
    && sid in s'.closed
    && (forall l :: l in s.lanes ==> l in s'.lanes && s'.lanes[l].id == s.lanes[l].id)
    && (forall l :: l in s'.lanes && s'.lanes[l].id.sid == sid ==>
          s'.lanes[l].acted == if l in s.lanes then s.lanes[l].acted else [])
    && (forall k :: k in s'.store && s'.store[k].Proxy? && s'.store[k].id.sid == sid ==>
          k in s.store && s.store[k] == s'.store[k])
  }

  lemma FrozenStep(s: State, step: Step, sid: string)
    requires Inv(s) && sid in s.closed
    ensures Frozen(s, Apply(s, step), sid)
  {
    if Enabled(s, step) && step.CheckClosed? {
      BusyOfConn(s.lanes[step.lane], s.closed);
      FrozenCheck(s, step.lane, step.i, sid);
    } else if Enabled(s, step) && step.Register? {
      BusyOfConn(s.lanes[step.lane], s.closed);
      FrozenRegister(s, step.lane, step.i, sid);
    } else if OfCleaner(step) {
      FrozenCleaner(s, step, sid);
    } else {
      FrozenOtherwise(s, step, sid);
    }
  }

  lemma FrozenCleaner(s: State, step: Step, sid: string)
    requires sid in s.closed && OfCleaner(step)
    ensures Frozen(s, Apply(s, step), sid)
  {
    var s' := Apply(s, step);
    assert s'.lanes == s.lanes && sid in s'.closed;
    assert s'.store == s.store || (step.Sweep? && s'.store == s.store - {step.key});
  }

  lemma FrozenCheck(s: State, l: nat, i: nat, sid: string)
    requires sid in s.closed && Enabled(s, CheckClosed(l, i))
    requires OfConn(s.lanes[l].id, s.lanes[l].queue.busy[i])
    ensures Frozen(s, Apply(s, CheckClosed(l, i)), sid)
  {
  }

  lemma FrozenRegister(s: State, l: nat, i: nat, sid: string)
    requires sid in s.closed && Enabled(s, Register(l, i))
    requires OfConn(s.lanes[l].id, s.lanes[l].queue.busy[i])
    requires s.lanes[l].id.sid !in s.closed
    ensures Frozen(s, Apply(s, Register(l, i)), sid)
  {
  }

  lemma FrozenLane(s: State, l: nat, o: Lane, sid: string)
    requires sid in s.closed && l in s.lanes && o.id == s.lanes[l].id && o.acted == s.lanes[l].acted
    ensures Frozen(s, s.(lanes := s.lanes[l := o]), sid)
  {
  }

  lemma FrozenHandler(s: State, step: Step, sid: string)
    requires sid in s.closed && Enabled(s, step) && OfHandler(step) && !step.CheckClosed?
    ensures Frozen(s, Apply(s, step), sid)
  {
    match step
    case RLock(l, i) => FrozenLane(s, l, s.lanes[l].(phases := s.lanes[l].phases[i := Checking]), sid);
    case GiveUp(l, i) => FrozenLane(s, l, GiveUpLane(s.lanes[l], i), sid);
    case RUnlock(l, i) => FrozenLane(s, l, FinishLane(s.lanes[l], i), sid);
  }

  lemma FrozenProxyUse(s: State, step: Step, sid: string)
    requires sid in s.closed && Enabled(s, step) && OfProxyUse(step) && !step.Register?
    ensures Frozen(s, Apply(s, step), sid)
  {
    match step
    case FindProxy(l, i) => FrozenLane(s, l, WriteLane(s.lanes[l], i, KeyOf(IdOf(s, l, i))), sid);
    case BuildProxy(l, i) => FrozenLane(s, l, s.lanes[l].(phases := s.lanes[l].phases[i := Built]), sid);
    case WriteDone(l, i, _) => FrozenLane(s, l, s.lanes[l].(phases := s.lanes[l].phases[i := Leaving]), sid);
  }

  lemma FrozenOtherwise(s: State, step: Step, sid: string)
    requires sid in s.closed
    requires !OfCleaner(step) && (Enabled(s, step) ==> !step.CheckClosed? && !step.Register?)
    ensures Frozen(s, Apply(s, step), sid)
  {
    if Enabled(s, step) {
      if OfHandler(step) {
        FrozenHandler(s, step, sid);
      } else if OfProxyUse(step) {
        FrozenProxyUse(s, step, sid);
      }
    }
  }

  lemma FrozenNext(s: State, m: State, step: Step, sid: string)
    requires Inv(m) && Frozen(s, m, sid)
    ensures Frozen(s, Apply(m, step), sid)
  {
    FrozenStep(m, step, sid);
    FrozenTrans(s, m, Apply(m, step), sid);
  }

  lemma FrozenTrans(s: State, s': State, s'': State, sid: string)
    requires Frozen(s, s', sid) && Frozen(s', s'', sid)
    ensures Frozen(s, s'', sid)
  {
  }

  lemma {:induction false} AfterMore(steps: seq<Step>, less: seq<Step>, last: Step)
    ensures After(steps + (less + [last])) == Apply(After(steps + less), last)
  {
    assert (steps + (less + [last]))[..|steps + less|] == steps + less;
  }

  /** Session closure is terminal: from a state in which `sid` is closed, whatever
      runs next, it stays closed, no queue object of it acts on another packet and
      no proxy is registered for it. */
  lemma {:induction false} ClosedIsTerminal(steps: seq<Step>, more: seq<Step>, sid: string)
    requires sid in After(steps).closed
    ensures Frozen(After(steps), After(steps + more), sid)
  {
    if more == [] {
      assert steps + more == steps;
    } else {
      var less, last := more[..|more| - 1], more[|more| - 1];
      ClosedIsTerminal(steps, less, sid);
      InvAlways(steps + less);
      FrozenNext(After(steps), After(steps + less), last, sid);
      AfterMore(steps, less, last);
      assert less + [last] == more;
    }
  }

  // ---- a second worker does arise -------------------------------------------

  const ID := Id(Ssh, "s", "c")
  const PACKET := Q.Packet("s", "c", [])
  const SLOT := (Ssh, "s:c")
  const WORKING := PushLane(NewLane(ID), PACKET)

  ghost predicate Occurs(s: State) {
    exists steps :: After(steps) == s
  }

  lemma Do(s: State, step: Step) returns (s': State)
    requires Occurs(s)
    ensures s' == Apply(s, step) && Occurs(s')
  {
    var steps :| After(steps) == s;
    s' := Apply(s, step);
    assert (steps + [step])[..|steps|] == steps;
    assert After(steps + [step]) == s';
  }

  /** A packet arrives for a connection without a queue, and starts a worker. */
  lemma PacketArrives(s: State, l: nat) returns (s': State)
    requires Occurs(s) && s.recv.Idle? && SLOT !in s.queues && l !in s.lanes
    ensures Occurs(s')
    ensures s' == s.(lanes := s.lanes[l := WORKING], queues := s.queues[SLOT := l])
  {
    assert KeyOf(ID) == "s:c";
    s' := Do(s, RecvLoad(ID, [], l));
    s' := Do(s', RecvPush);
    assert s'.lanes == s.lanes[l := WORKING];
  }

  lemma CleanupLocks(s: State) returns (s': State)
    requires Occurs(s) && s.cleaners == map[] && s.lanes == map[0 := WORKING]
    ensures Occurs(s') && s' == s.(cleaners := map[0 := Cleaner("s", Locked)])
  {
    s' := Do(s, CloseArrives(0, "s"));
    assert s'.cleaners == map[0 := Cleaner("s", WantLock)];
    s' := Do(s', Lock(0));
  }

  lemma CleanupMarks(s: State) returns (s': State)
    requires Occurs(s) && s.cleaners == map[0 := Cleaner("s", Locked)] && s.store == map[]
    ensures Occurs(s')
    ensures s' == s.(cleaners := map[0 := Cleaner("s", Sweeping({}))], closed := s.closed + {"s"})
  {
    s' := Do(s, MarkClosed(0));
    s' := Do(s', Snapshot(0));
    assert s'.cleaners[0].phase.todo == {};
  }

  lemma CleanupDrops(s: State) returns (s': State)
    requires Occurs(s) && s.cleaners == map[0 := Cleaner("s", Sweeping({}))]
    ensures Occurs(s') && s'.recv == s.recv && s'.lanes == s.lanes && SLOT !in s'.queues
  {
    assert HasPrefix("s:c", "s" + ":");
    s' := Do(s, SweepDone(0));
    s' := Do(s', DropQueue(0, Ssh, "s:c"));
  }

  /** Two queue objects of one connection, each with a live worker: a packet that
      arrives after cleanup has dropped the queue makes the second. */
  lemma SecondWorkerArises()
    ensures exists steps, l, l' :: var s := After(steps);
              && l in s.lanes && l' in s.lanes && l != l' && s.lanes[l].id == s.lanes[l'].id
              && s.lanes[l].queue.idle == 1 && s.lanes[l'].queue.idle == 1
  {
    assert After([]) == START;
    var s := PacketArrives(START, 0);
    s := CleanupLocks(s);
    s := CleanupMarks(s);
    s := CleanupDrops(s);
    s := PacketArrives(s, 1);
    var steps :| After(steps) == s;
    assert After(steps).lanes[0].queue.idle == 1 && After(steps).lanes[1].queue.idle == 1;
  }
}
