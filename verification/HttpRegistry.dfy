/** Reaching a proxied HTTP request that is in flight (agent/controller/httpproxy.go,
    agent.go): the handler registers its proxy in the connection store before it
    writes, so that a connection close or a session cleanup can find and close it.

    Any number of sessions, connections, queue objects, closes and cleanups. A
    step is one operation on the connection store or the queue map. By the packet
    queue's own theorem a queue object has at most one worker at a time. */
module HttpRegistry {
  datatype Key = Params(sid: nat) | Conn(sid: nat, conn: nat)

  datatype Obj = Settings | Proxy(proxy: nat)

  /** Where the worker of a queue object is. */
  datatype Phase =
    | Idle
    | Check                               // about to read the session's parameters
    | Lookup
    | Building
    | Built(proxy: nat)
    | Writing(proxy: nat, first: bool)    // the blocking round trip
    | DelThenClose(proxy: nat)            // the first write failed
    | CloseAfterDel(proxy: nat)
    | CloseThenDel(proxy: nat)            // a later write failed
    | DelAfterClose(proxy: nat)

  datatype Lane = Lane(key: Key, phase: Phase)

  /** A TCPConnectionClose or a session cleanup going through its snapshot. The
      objects in `dying` have been handed to Close and are about to be removed;
      `snapshot` is the snapshot as it was taken. */
  datatype Closer = Closer(cleanup: bool, sid: nat, todo: map<Key, Obj>, dying: map<Key, Obj>, swept: bool,
                           snapshot: map<Key, Obj>)

  datatype State = State(
    store: map<Key, Obj>,
    queues: map<Key, nat>,
    lanes: map<nat, Lane>,
    closers: map<nat, Closer>,
    nextProxy: nat,
    // history
    cleaning: set<nat>,      // sessions whose cleanup has begun
    swept: set<nat>,         // sessions whose cleanup has gone through the store
    handed: set<nat>,        // proxies handed to a Close
    raced: bool,             // a proxy was registered under a key that a close still had to remove
    late: bool)              // a session was opened after its cleanup had begun

  const START := State(map[], map[], map[], map[], 0, {}, {}, {}, false, false)

  datatype Step =
    | Open(sid: nat)
    | NewQueue(l: nat, sid: nat, conn: nat)
    | Run(l: nat, failed: bool)
    | CloseConn(c: nat, keys: set<Key>)
    | CloseSession(c: nat, sid: nat, keys: set<Key>)
    | Hand(c: nat, key: Key)
    | Remove(c: nat, key: Key)
    | Swept(c: nat)
    | DropQueue(c: nat, key: Key)

  ghost predicate Enabled(s: State, step: Step) {
    match step
    case Open(_) => true
    case NewQueue(l, sid, conn) => l !in s.lanes && Conn(sid, conn) !in s.queues
    case Run(l, _) => l in s.lanes && s.lanes[l].key.Conn?
    case CloseConn(c, _) => c !in s.closers
    case CloseSession(c, sid, keys) =>
      // the filter takes at least the session's own keys
      c !in s.closers && forall k :: k in s.store && k.sid == sid ==> k in keys
    case Hand(c, key) => c in s.closers && key in s.closers[c].todo
    case Remove(c, key) => c in s.closers && key in s.closers[c].dying
    case Swept(c) => c in s.closers && s.closers[c].cleanup && s.closers[c].todo == map[] && s.closers[c].dying == map[]
    case DropQueue(c, key) => c in s.closers && s.closers[c].swept && key.sid == s.closers[c].sid
  }

  function NextPhase(o: Lane, store: map<Key, Obj>, nextProxy: nat, failed: bool): Phase {
    match o.phase
    case Idle => Check
    case Check => if Params(o.key.sid) in store then Lookup else Idle
    case Lookup => if o.key in store && store[o.key].Proxy? then Writing(store[o.key].proxy, false) else Building
    case Building => if failed then Idle else Built(nextProxy)
    case Built(p) => Writing(p, true)
    case Writing(p, first) => if !failed then Idle else if first then DelThenClose(p) else CloseThenDel(p)
    case DelThenClose(p) => CloseAfterDel(p)
    case CloseAfterDel(_) => Idle
    case CloseThenDel(p) => DelAfterClose(p)
    case DelAfterClose(_) => Idle
  }

  /** A built proxy is registered; a failed write deletes whatever is there. */
  function NextStore(o: Lane, store: map<Key, Obj>): map<Key, Obj> {
    if o.phase.Built? then store[o.key := Proxy(o.phase.proxy)]
    else if o.phase.DelThenClose? || o.phase.DelAfterClose? then store - {o.key}
    else store
  }

  function NextHanded(o: Lane, handed: set<nat>): set<nat> {
    if o.phase.CloseAfterDel? || o.phase.CloseThenDel? then handed + {o.phase.proxy} else handed
  }

  /** Some close or cleanup has the key in its snapshot and has not removed it yet. */
  ghost predicate Held(closers: map<nat, Closer>, k: Key) {
    exists c :: c in closers && (k in closers[c].todo || k in closers[c].dying)
  }

  ghost function Handler(s: State, l: nat, failed: bool): State
    requires l in s.lanes
  {
    var o := s.lanes[l];
    s.(lanes := s.lanes[l := o.(phase := NextPhase(o, s.store, s.nextProxy, failed))],
       store := NextStore(o, s.store),
       handed := NextHanded(o, s.handed),
       nextProxy := if o.phase.Building? && !failed then s.nextProxy + 1 else s.nextProxy,
       raced := s.raced || (o.phase.Built? && Held(s.closers, o.key)))
  }

  function Restrict(m: map<Key, Obj>, keys: set<Key>, proxiesOnly: bool): map<Key, Obj> {
    map k | k in m && k in keys && (proxiesOnly ==> m[k].Proxy?) :: m[k]
  }

  ghost function Apply(s: State, step: Step): State {
    if !Enabled(s, step) then s else
    match step
    case Open(sid) => s.(store := s.store[Params(sid) := Settings], late := s.late || sid in s.cleaning)
    case NewQueue(l, sid, conn) =>
      s.(lanes := s.lanes[l := Lane(Conn(sid, conn), Idle)], queues := s.queues[Conn(sid, conn) := l])
    case Run(l, failed) => Handler(s, l, failed)
    case CloseConn(c, keys) =>
      var snapshot := Restrict(s.store, keys, true);
      s.(closers := s.closers[c := Closer(false, 0, snapshot, map[], false, snapshot)])
    case CloseSession(c, sid, keys) =>
      var snapshot := Restrict(s.store, keys, false);
      s.(closers := s.closers[c := Closer(true, sid, snapshot, map[], false, snapshot)],
         cleaning := s.cleaning + {sid})
    case Hand(c, key) =>
      var r := s.closers[c];
      s.(closers := s.closers[c := r.(todo := r.todo - {key}, dying := r.dying[key := r.todo[key]])],
         handed := s.handed + if r.todo[key].Proxy? then {r.todo[key].proxy} else {})
    case Remove(c, key) =>
      s.(closers := s.closers[c := s.closers[c].(dying := s.closers[c].dying - {key})], store := s.store - {key})
    case Swept(c) =>
      s.(closers := s.closers[c := s.closers[c].(swept := true)], swept := s.swept + {s.closers[c].sid})
    case DropQueue(_, key) => s.(queues := s.queues - {key})
  }

  ghost function After(steps: seq<Step>): State {
    if steps == [] then START
    else Apply(After(steps[..|steps| - 1]), steps[|steps| - 1])
  }

  // ---- the promise ----------------------------------------------------------

  /** A write in flight on `l` can be reached: its proxy is registered, or a Close
      already has it. */
  ghost predicate Reachable(s: State, l: nat)
    requires l in s.lanes && s.lanes[l].phase.Writing?
  {
    var p := s.lanes[l].phase.proxy;
    p in s.handed || (s.lanes[l].key in s.store && s.store[s.lanes[l].key] == Proxy(p))
  }

  ghost predicate AllReachable(s: State) {
    forall l :: l in s.lanes && s.lanes[l].phase.Writing? ==> Reachable(s, l)
  }

  // ---- what every run keeps -------------------------------------------------

  /** What a closer is about to remove has been handed to Close. */
  ghost predicate DyingOk(r: Closer, handed: set<nat>) {
    forall k :: k in r.dying && r.dying[k].Proxy? ==> r.dying[k].proxy in handed
  }

  ghost predicate Basic(s: State) {
    && (forall l :: l in s.lanes ==> s.lanes[l].key.Conn?)
    && (forall c :: c in s.closers ==> DyingOk(s.closers[c], s.handed))
  }

  lemma BasicStep(s: State, step: Step)
    requires Basic(s)
    ensures Basic(Apply(s, step))
  {
  }

  // ---- what takes a write out of reach --------------------------------------

  /** A close or cleanup is about to delete something other than what it closed:
      the comparison that its unconditional Del does not make. */
  ghost predicate Stale(s: State, step: Step) {
    && step.Remove? && Enabled(s, step)
    && step.key in s.store && s.store[step.key] != s.closers[step.c].dying[step.key]
  }

  /** Another worker of the connection of `l` is about to delete its key, or to
      register a proxy of its own under it. */
  ghost predicate Intrudes(s: State, step: Step, l: nat)
    requires l in s.lanes
  {
    && step.Run? && step.l in s.lanes && step.l != l && s.lanes[step.l].key == s.lanes[l].key
    && var o := s.lanes[step.l];
    && (o.phase.DelThenClose? || o.phase.DelAfterClose? || o.phase.Built?)
    && (o.phase.Built? && o.key in s.store ==> s.store[o.key] != Proxy(o.phase.proxy))
  }

  /** A write is in flight on `l` with a proxy that no Close has. */
  ghost predicate Unclosed(s: State, l: nat) {
    l in s.lanes && s.lanes[l].phase.Writing? && s.lanes[l].phase.proxy !in s.handed
  }

  ghost predicate Endangers(s: State, step: Step, l: nat) {
    Unclosed(s, l) && ((Stale(s, step) && step.key == s.lanes[l].key) || Intrudes(s, step, l))
  }

  /** Removing or overwriting what is under a key. */
  lemma OverwriteReach(s: State, l: nat, k: Key, store: map<Key, Obj>)
    requires l in s.lanes && s.lanes[l].phase.Writing? && Reachable(s, l)
    requires forall k' :: k' != k && k' in s.store ==> k' in store && store[k'] == s.store[k']
    ensures Reachable(s.(store := store), l) <==>
              || s.lanes[l].phase.proxy in s.handed || s.lanes[l].key != k
              || (k in store && store[k] == Proxy(s.lanes[l].phase.proxy))
  {
  }

  /** Through a step of anything but its own worker a write in flight stays
      reachable exactly when that step is neither stale nor an intrusion. */
  lemma StaysReachable(s: State, step: Step, l: nat)
    requires Basic(s) && l in s.lanes && s.lanes[l].phase.Writing? && Reachable(s, l)
    requires !step.Run? || step.l != l
    ensures var s' := Apply(s, step);
            l in s'.lanes && s'.lanes[l] == s.lanes[l] && (Reachable(s', l) <==> !Endangers(s, step, l))
  {
    if Enabled(s, step) {
      match step
      case Run(u, failed) => OverwriteReach(s, l, s.lanes[u].key, NextStore(s.lanes[u], s.store));
      case Remove(c, key) =>
        assert DyingOk(s.closers[c], s.handed);
        OverwriteReach(s, l, key, s.store - {key});
      case _ =>
    }
  }

  /** A worker that begins a write has registered its proxy, or found it so. */
  lemma BeginsReachable(s: State, l: nat, failed: bool)
    requires l in s.lanes && Handler(s, l, failed).lanes[l].phase.Writing?
    ensures Reachable(Handler(s, l, failed), l)
  {
  }

  lemma StepExactly(s: State, step: Step)
    requires Basic(s) && AllReachable(s)
    ensures AllReachable(Apply(s, step)) <==> forall l :: !Endangers(s, step, l)
  {
    var s' := Apply(s, step);
    forall l | Endangers(s, step, l) ensures !AllReachable(s') {
      StaysReachable(s, step, l);
    }
    if forall l :: !Endangers(s, step, l) {
      forall l | l in s'.lanes && s'.lanes[l].phase.Writing? ensures Reachable(s', l) {
        if step.Run? && step.l == l {
          if Enabled(s, step) { BeginsReachable(s, l, step.failed); }
        } else {
          assert l in s.lanes && s.lanes[l] == s'.lanes[l];
          StaysReachable(s, step, l);
        }
      }
    }
  }

  ghost predicate ReachableThroughout(steps: seq<Step>) {
    AllReachable(After(steps)) && (steps == [] || ReachableThroughout(steps[..|steps| - 1]))
  }

  ghost predicate NeverEndangers(steps: seq<Step>) {
    steps == [] ||
    var before, last := steps[..|steps| - 1], steps[|steps| - 1];
    NeverEndangers(before) && forall l :: !Endangers(After(before), last, l)
  }

  /** In every run: all writes in flight are reachable at every moment exactly when
      no unclosed one meets a stale deletion of its key or another worker of its
      connection deleting or registering. */
  lemma {:induction false} ReachableExactly(steps: seq<Step>)
    ensures Basic(After(steps))
    ensures ReachableThroughout(steps) <==> NeverEndangers(steps)
  {
    if steps != [] {
      var before, last := steps[..|steps| - 1], steps[|steps| - 1];
      ReachableExactly(before);
      BasicStep(After(before), last);
      if ReachableThroughout(before) {
        StepExactly(After(before), last);
      }
    }
  }

  /** What went wrong stays wrong. */
  lemma NeverUndone(s: State, step: Step)
    ensures (s.late ==> Apply(s, step).late) && (s.raced ==> Apply(s, step).raced)
  {
  }

  // ---- when no session is opened late ---------------------------------------

  /** Past the parameter check. */
  predicate Busy(p: Phase) {
    !p.Idle? && !p.Check?
  }

  /** A cleanup still has to remove its session's parameters. */
  ghost predicate ParamsOk(r: Closer, store: map<Key, Obj>) {
    r.cleanup && Params(r.sid) in store ==> Params(r.sid) in r.todo || Params(r.sid) in r.dying
  }

  /** Until a session's queues may be dropped each of its connections has one
      queue object; and never do two of one connection get past the check. */
  ghost predicate QueuesOk(lanes: map<nat, Lane>, queues: map<Key, nat>, swept: set<nat>) {
    && (forall l :: l in lanes && lanes[l].key.sid !in swept ==> lanes[l].key in queues && queues[lanes[l].key] == l)
    && (forall l, l' | l in lanes && l' in lanes && l != l' ::
          Busy(lanes[l].phase) && Busy(lanes[l'].phase) ==> lanes[l].key != lanes[l'].key)
  }

  ghost predicate SweptOk(s: State) {
    && (forall c :: c in s.closers ==> (s.closers[c].cleanup ==> s.closers[c].sid in s.cleaning)
                                       && (s.closers[c].swept ==> s.closers[c].sid in s.swept))
    && (forall sid :: sid in s.swept ==> sid in s.cleaning && Params(sid) !in s.store)
  }

  ghost predicate Alone(s: State) {
    && (forall c :: c in s.closers ==> ParamsOk(s.closers[c], s.store))
    && QueuesOk(s.lanes, s.queues, s.swept)
    && SweptOk(s)
  }

  lemma AloneRun(s: State, l: nat, failed: bool)
    requires Basic(s) && Alone(s) && l in s.lanes
    ensures Alone(Handler(s, l, failed))
  {
    var o, s' := s.lanes[l], Handler(s, l, failed);
    assert forall sid :: Params(sid) in s'.store <==> Params(sid) in s.store;
    assert Busy(s'.lanes[l].phase) && !Busy(o.phase) ==> o.key.sid !in s.swept;
  }

  lemma AloneOtherwise(s: State, step: Step)
    requires Alone(s) && !step.Run? && !Apply(s, step).late
    ensures Alone(Apply(s, step))
  {
  }

  lemma AloneStep(s: State, step: Step)
    requires Basic(s) && Alone(s) && !Apply(s, step).late
    ensures Alone(Apply(s, step))
  {
    if step.Run? {
      if Enabled(s, step) { AloneRun(s, step.l, step.failed); }
    } else {
      AloneOtherwise(s, step);
    }
  }

  lemma {:induction false} AloneAlways(steps: seq<Step>)
    requires !After(steps).late
    ensures Alone(After(steps))
  {
    if steps != [] {
      var before, last := steps[..|steps| - 1], steps[|steps| - 1];
      NeverUndone(After(before), last);
      AloneAlways(before);
      ReachableExactly(before);
      AloneStep(After(before), last);
    }
  }

  /** Then no worker's own Del or Set ever takes a write out of reach, only a stale
      deletion of its key by a close or cleanup. */
  lemma {:induction false} OnlyStaleDeletions(steps: seq<Step>, step: Step, l: nat)
    requires !After(steps).late && Unclosed(After(steps), l) && Reachable(After(steps), l)
    requires !step.Run? || step.l != l
    ensures var s := After(steps);
            Reachable(Apply(s, step), l) <==> !(Stale(s, step) && step.key == s.lanes[l].key)
  {
    ReachableExactly(steps);
    AloneAlways(steps);
    StaysReachable(After(steps), step, l);
  }

  /** No write that no Close has is in flight where the step deletes stalely. */
  ghost predicate Harmless(s: State, step: Step) {
    Stale(s, step) ==> forall l :: Unclosed(s, l) ==> s.lanes[l].key != step.key
  }

  lemma NoIntruder(s: State, step: Step)
    requires Alone(s)
    ensures (forall l :: !Endangers(s, step, l)) <==> Harmless(s, step)
  {
    forall l | Unclosed(s, l) ensures Endangers(s, step, l) <==> Stale(s, step) && step.key == s.lanes[l].key {
      assert step.Run? && step.l in s.lanes && Busy(s.lanes[step.l].phase) && step.l != l ==>
          s.lanes[step.l].key != s.lanes[l].key;
    }
  }

  ghost predicate NeverStale(steps: seq<Step>) {
    steps == [] ||
    var before, last := steps[..|steps| - 1], steps[|steps| - 1];
    NeverStale(before) && Harmless(After(before), last)
  }

  /** Over whole runs: all writes in flight are reachable at every moment exactly
      when every close and cleanup deletes only what it closed, wherever a write
      that no Close has is in flight. */
  lemma {:induction false} StaleExactly(steps: seq<Step>)
    requires !After(steps).late
    ensures ReachableThroughout(steps) <==> NeverStale(steps)
  {
    ReachableExactly(steps);
    NeverStaleIs(steps);
  }

  lemma {:induction false} NeverStaleIs(steps: seq<Step>)
    requires !After(steps).late
    ensures NeverEndangers(steps) <==> NeverStale(steps)
  {
    if steps != [] {
      var before, last := steps[..|steps| - 1], steps[|steps| - 1];
      NeverUndone(After(before), last);
      NeverStaleIs(before);
      AloneAlways(before);
      NoIntruder(After(before), last);
    }
  }

  // ---- when no registration races a close -----------------------------------

  /** What a closer holds is still what the store has, unless it is gone. */
  ghost predicate AgreeOk(r: Closer, store: map<Key, Obj>) {
    && (forall k :: k in r.todo && k in store && k.Conn? ==> store[k] == r.todo[k])
    && (forall k :: k in r.dying && k in store && k.Conn? ==> store[k] == r.dying[k])
  }

  ghost predicate Agree(s: State) {
    forall c :: c in s.closers ==> AgreeOk(s.closers[c], s.store)
  }

  lemma AgreeStep(s: State, step: Step)
    requires Basic(s) && Agree(s) && !Apply(s, step).raced
    ensures Agree(Apply(s, step))
  {
  }

  lemma {:induction false} AgreeAlways(steps: seq<Step>)
    requires !After(steps).raced
    ensures Agree(After(steps))
  {
    if steps != [] {
      var before, last := steps[..|steps| - 1], steps[|steps| - 1];
      NeverUndone(After(before), last);
      AgreeAlways(before);
      ReachableExactly(before);
      AgreeStep(After(before), last);
    }
  }

  /** So it is enough that no session is opened once its cleanup has begun and that
      no proxy is registered under a key that a close has in its snapshot and has
      not removed yet. */
  lemma {:induction false} InFlightIsReachable(steps: seq<Step>)
    requires !After(steps).late && !After(steps).raced
    ensures ReachableThroughout(steps)
  {
    StaleExactly(steps);
    NothingStale(steps);
  }

  lemma {:induction false} NothingStale(steps: seq<Step>)
    requires !After(steps).raced
    ensures NeverStale(steps)
  {
    if steps != [] {
      var before, last := steps[..|steps| - 1], steps[|steps| - 1];
      NeverUndone(After(before), last);
      NothingStale(before);
      AgreeAlways(before);
      ReachableExactly(before);
      if Stale(After(before), last) {
        assert AgreeOk(After(before).closers[last.c], After(before).store);
      }
    }
  }

  // ---- neither proviso can be dropped ---------------------------------------

  ghost predicate Occurs(s: State) {
    exists steps :: After(steps) == s
  }

  lemma Do(s: State, step: Step) returns (s': State)
    requires Occurs(s)
    ensures s' == Apply(s, step) && Occurs(s')
  {
    var steps :| After(steps) == s;
    assert (steps + [step])[..|steps|] == steps;
    assert After(steps + [step]) == Apply(s, step);
    s' := Apply(s, step);
  }

  /** A worker, from idle, passes the parameter check and looks its key up. */
  lemma LooksUp(s: State, l: nat) returns (s': State)
    requires Occurs(s) && l in s.lanes && s.lanes[l].phase.Idle? && s.lanes[l].key.Conn?
    requires Params(s.lanes[l].key.sid) in s.store
    ensures Occurs(s')
    ensures var k := s.lanes[l].key;
            s' == s.(lanes := s.lanes[l := Lane(k, if k in s.store && s.store[k].Proxy?
                                                   then Writing(s.store[k].proxy, false) else Building)])
  {
    s' := Do(s, Run(l, false));
    s' := Do(s', Run(l, false));
    assert s'.lanes[l].phase == Lookup;
    s' := Do(s', Run(l, false));
    assert s'.lanes == s.lanes[l := s'.lanes[l]];
  }

  /** It finds no proxy and registers a new one. */
  lemma Registers(s: State, l: nat) returns (s': State)
    requires Occurs(s) && l in s.lanes && s.lanes[l].phase.Idle? && s.lanes[l].key.Conn?
    requires s.lanes[l].key !in s.store && Params(s.lanes[l].key.sid) in s.store
    ensures Occurs(s')
    ensures var k, p := s.lanes[l].key, s.nextProxy;
            s' == s.(lanes := s.lanes[l := Lane(k, Writing(p, true))], store := s.store[k := Proxy(p)],
                     nextProxy := p + 1, raced := s.raced || Held(s.closers, k))
  {
    s' := LooksUp(s, l);
    s' := Do(s', Run(l, false));
    s' := Do(s', Run(l, false));
    assert s'.lanes == s.lanes[l := s'.lanes[l]];
  }

  /** Its first write fails and it deletes the registration. */
  lemma Deletes(s: State, l: nat, p: nat) returns (s': State)
    requires Occurs(s) && l in s.lanes && s.lanes[l].key.Conn? && s.lanes[l].phase == Writing(p, true)
    ensures Occurs(s')
    ensures var k := s.lanes[l].key;
            s' == s.(lanes := s.lanes[l := Lane(k, CloseAfterDel(p))], store := s.store - {k})
  {
    s' := Do(s, Run(l, true));
    s' := Do(s', Run(l, true));
    assert s'.lanes == s.lanes[l := s'.lanes[l]];
  }

  /** A connection close takes its snapshot while the worker's first write is in
      flight. */
  lemma SnapshotTaken() returns (s: State)
    ensures Occurs(s)
    ensures var k := Conn(0, 0);
            s == State(map[Params(0) := Settings, k := Proxy(0)], map[k := 0], map[0 := Lane(k, Writing(0, true))],
                       map[0 := Closer(false, 0, map[k := Proxy(0)], map[], false, map[k := Proxy(0)])], 1, {}, {}, {}, false, false)
  {
    var k := Conn(0, 0);
    assert After([]) == START;
    s := Do(START, Open(0));
    s := Do(s, NewQueue(0, 0, 0));
    s := Registers(s, 0);
    s := Do(s, CloseConn(0, {k}));
    assert s.closers[0].todo == map[k := Proxy(0)];
  }

  /** The write fails and the worker closes its proxy. */
  lemma SnapshotThenFailure() returns (s: State)
    ensures Occurs(s)
    ensures var k := Conn(0, 0);
            s == State(map[Params(0) := Settings], map[k := 0], map[0 := Lane(k, Idle)],
                       map[0 := Closer(false, 0, map[k := Proxy(0)], map[], false, map[k := Proxy(0)])], 1, {}, {}, {0}, false, false)
  {
    s := SnapshotTaken();
    s := Deletes(s, 0, 0);
    s := Do(s, Run(0, true));
    assert s.store == map[Params(0) := Settings];
  }

  /** The next packet builds a new proxy, and the close removes that one unclosed. */
  lemma RebuiltProxyIsCut()
    ensures exists steps :: !After(steps).late && !AllReachable(After(steps))
  {
    var s := SnapshotThenFailure();
    s := Registers(s, 0);
    s := Do(s, Hand(0, Conn(0, 0)));
    s := Do(s, Remove(0, Conn(0, 0)));
    assert !Reachable(s, 0);
  }

  /** A session whose cleanup found nothing drops a connection's queue; a second
      queue is made for the connection, and the session is opened. */
  lemma SecondQueue() returns (s: State)
    ensures Occurs(s)
    ensures var k := Conn(0, 0);
            s == State(map[Params(0) := Settings], map[k := 1], map[0 := Lane(k, Idle), 1 := Lane(k, Idle)],
                       map[0 := Closer(true, 0, map[], map[], true, map[])], 0, {0}, {0}, {}, false, true)
  {
    var k := Conn(0, 0);
    assert After([]) == START;
    s := Do(START, NewQueue(0, 0, 0));
    s := Do(s, CloseSession(0, 0, {}));
    assert s.closers[0].todo == map[];
    s := Do(s, Swept(0));
    s := Do(s, DropQueue(0, k));
    assert s.queues == map[];
    s := Do(s, NewQueue(1, 0, 0));
    s := Do(s, Open(0));
  }

  /** Its two workers share one proxy, and the one whose first write fails deletes
      it under the other. */
  lemma LateSessionIsCut()
    ensures exists steps :: !After(steps).raced && !AllReachable(After(steps))
  {
    var s := SecondQueue();
    s := Registers(s, 0);
    s := LooksUp(s, 1);
    s := Deletes(s, 0, 0);
    assert !Reachable(s, 1);
  }
}
