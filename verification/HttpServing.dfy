/** That proxied HTTP connections are served and closed (agent/controller/httpproxy.go,
    agent.go): which proxy a packet is written to, what becomes of a failed one, what a
    close reaches, and that no proxy is lost. */
module HttpServing {
  import opened Prelude
  import opened HttpRegistry

  lemma {:induction false} AfterOneMore(steps: seq<Step>, step: Step)
    ensures After(steps + [step]) == Apply(After(steps), step)
  {
    assert (steps + [step])[..|steps|] == steps;
  }

  lemma {:induction false} AfterTwoMore(steps: seq<Step>, a: Step, b: Step)
    ensures After(steps + [a, b]) == Apply(Apply(After(steps), a), b)
  {
    var one := steps + [a];
    assert steps + [a, b] == one + [b];
    AfterOneMore(one, b);
    AfterOneMore(steps, a);
  }

  lemma {:induction false} AfterThreeMore(steps: seq<Step>, a: Step, b: Step, c: Step)
    ensures After(steps + [a, b, c]) == Apply(Apply(Apply(After(steps), a), b), c)
  {
    var two := steps + [a, b];
    assert steps + [a, b, c] == two + [c];
    AfterOneMore(two, c);
    AfterTwoMore(steps, a, b);
  }

  // ---- a packet's way -------------------------------------------------------

  /** In an open session a packet is written to the proxy registered for its connection
      if there is one: three steps of its worker lead there and change nothing else. */
  lemma {:induction false} WritesToRegistered(steps: seq<Step>, l: nat)
    requires var s := After(steps);
             && l in s.lanes && s.lanes[l].phase.Idle? && Params(s.lanes[l].key.sid) in s.store
             && s.lanes[l].key in s.store && s.store[s.lanes[l].key].Proxy?
    ensures var s, s' := After(steps), After(steps + [Run(l, false), Run(l, false), Run(l, false)]);
            s' == s.(lanes := s.lanes[l := Lane(s.lanes[l].key, Writing(s.store[s.lanes[l].key].proxy, false))])
  {
    ReachableExactly(steps);
    AfterThreeMore(steps, Run(l, false), Run(l, false), Run(l, false));
    var s := After(steps);
    WorkerLooksUp(s, l);
  }

  lemma WorkerLooksUp(s: State, l: nat)
    requires l in s.lanes && s.lanes[l].phase.Idle? && s.lanes[l].key.Conn? && Params(s.lanes[l].key.sid) in s.store
    ensures var k := s.lanes[l].key;
            Apply(Apply(Apply(s, Run(l, false)), Run(l, false)), Run(l, false)) ==
              s.(lanes := s.lanes[l := Lane(k, if k in s.store && s.store[k].Proxy?
                                               then Writing(s.store[k].proxy, false) else Building)])
  {
    var a := Apply(s, Run(l, false));
    assert a == s.(lanes := s.lanes[l := Lane(s.lanes[l].key, Check)]);
    var b := Apply(a, Run(l, false));
    assert b.lanes == s.lanes[l := Lane(s.lanes[l].key, Lookup)];
    assert b == s.(lanes := b.lanes);
    assert Apply(b, Run(l, false)).lanes == s.lanes[l := Apply(b, Run(l, false)).lanes[l]];
  }

  /** And to a new proxy, registered before the write, if there is none. */
  lemma {:induction false} WritesToNew(steps: seq<Step>, l: nat)
    requires var s := After(steps);
             && l in s.lanes && s.lanes[l].phase.Idle? && Params(s.lanes[l].key.sid) in s.store
             && s.lanes[l].key !in s.store
    ensures var more := [Run(l, false), Run(l, false), Run(l, false)] + [Run(l, false), Run(l, false)];
            var s, s' := After(steps), After(steps + more);
            && l in s'.lanes && s'.lanes[l].phase == Writing(s.nextProxy, true)
            && s'.store == s.store[s.lanes[l].key := Proxy(s.nextProxy)] && s'.handed == s.handed
  {
    ReachableExactly(steps);
    var s, three := After(steps), [Run(l, false), Run(l, false), Run(l, false)];
    assert steps + (three + [Run(l, false), Run(l, false)]) == steps + three + [Run(l, false), Run(l, false)];
    AfterThreeMore(steps, Run(l, false), Run(l, false), Run(l, false));
    WorkerLooksUp(s, l);
    AfterTwoMore(steps + three, Run(l, false), Run(l, false));
    WorkerRegisters(After(steps + three), l);
  }

  lemma WorkerRegisters(s: State, l: nat)
    requires l in s.lanes && s.lanes[l].phase.Building? && s.lanes[l].key.Conn?
    ensures var s' := Apply(Apply(s, Run(l, false)), Run(l, false));
            && l in s'.lanes && s'.lanes[l].phase == Writing(s.nextProxy, true)
            && s'.store == s.store[s.lanes[l].key := Proxy(s.nextProxy)] && s'.handed == s.handed
  {
  }

  /** A successful write leaves everything as it was; a failed one ends with the proxy
      handed to Close and the connection's key deleted. */
  lemma {:induction false} WriteEnds(steps: seq<Step>, l: nat)
    requires l in After(steps).lanes && After(steps).lanes[l].phase.Writing?
    ensures var s := After(steps);
            var k, p := s.lanes[l].key, s.lanes[l].phase.proxy;
            && After(steps + [Run(l, false)]) == s.(lanes := s.lanes[l := Lane(k, Idle)])
            && var s' := After(steps + [Run(l, true), Run(l, true), Run(l, true)]);
            && l in s'.lanes && s'.lanes[l] == Lane(k, Idle) && s'.handed == s.handed + {p} && s'.store == s.store - {k}
  {
    ReachableExactly(steps);
    AfterOneMore(steps, Run(l, false));
    AfterThreeMore(steps, Run(l, true), Run(l, true), Run(l, true));
    FailedWrite(After(steps), l);
  }

  lemma FailedWrite(s: State, l: nat)
    requires l in s.lanes && s.lanes[l].phase.Writing? && s.lanes[l].key.Conn?
    ensures var k, p := s.lanes[l].key, s.lanes[l].phase.proxy;
            Apply(Apply(Apply(s, Run(l, true)), Run(l, true)), Run(l, true)) ==
              s.(lanes := s.lanes[l := Lane(k, Idle)], store := s.store - {k}, handed := s.handed + {p})
  {
    var k, p, first := s.lanes[l].key, s.lanes[l].phase.proxy, s.lanes[l].phase.first;
    var a := Apply(s, Run(l, true));
    assert a == s.(lanes := s.lanes[l := Lane(k, if first then DelThenClose(p) else CloseThenDel(p))]);
    var b := Apply(a, Run(l, true));
    assert b.lanes == s.lanes[l := Lane(k, if first then CloseAfterDel(p) else DelAfterClose(p))];
    assert Apply(b, Run(l, true)).lanes == s.lanes[l := Lane(k, Idle)];
  }

  // ---- a close's way --------------------------------------------------------

  /** A connection close takes the registered proxies under its keys, and a cleanup
      everything under them, its session's own entries included. */
  lemma {:induction false} SnapshotExactly(steps: seq<Step>, step: Step, k: Key)
    requires (step.CloseConn? || step.CloseSession?) && Enabled(After(steps), step)
    ensures var s, r := After(steps), Apply(After(steps), step).closers[step.c];
            && (k in r.snapshot <==> k in s.store && k in step.keys && (step.CloseConn? ==> s.store[k].Proxy?))
            && (k in r.snapshot ==> r.snapshot[k] == s.store[k]) && r.todo == r.snapshot && r.dying == map[]
            && (step.CloseSession? && k in s.store && k.sid == step.sid ==> k in r.snapshot)
  {
  }

  /** What a close took it has closed, or still has to. */
  ghost predicate TookOk(r: Closer, handed: set<nat>) {
    forall k :: k in r.snapshot && r.snapshot[k].Proxy? ==>
      r.snapshot[k].proxy in handed || (k in r.todo && r.todo[k] == r.snapshot[k])
  }

  ghost predicate TookInv(s: State) {
    forall c :: c in s.closers ==> TookOk(s.closers[c], s.handed)
  }

  lemma TookStep(s: State, step: Step)
    requires TookInv(s)
    ensures TookInv(Apply(s, step))
  {
    var s' := Apply(s, step);
    assert s.handed <= s'.handed;
    forall c | c in s'.closers ensures TookOk(s'.closers[c], s'.handed) {
      if c in s.closers {
        assert TookOk(s.closers[c], s.handed);
      }
    }
  }

  /** Once a close has gone through its snapshot, every proxy in it has been handed to
      Close. */
  lemma {:induction false} CloseReachesAll(steps: seq<Step>, c: nat, k: Key)
    requires var s := After(steps);
             && c in s.closers && s.closers[c].todo == map[] && k in s.closers[c].snapshot && s.closers[c].snapshot[k].Proxy?
    ensures After(steps).closers[c].snapshot[k].proxy in After(steps).handed
  {
    TookAlways(steps);
    assert TookOk(After(steps).closers[c], After(steps).handed);
  }

  lemma {:induction false} TookAlways(steps: seq<Step>)
    ensures TookInv(After(steps))
  {
    if steps != [] {
      TookAlways(steps[..|steps| - 1]);
      TookStep(After(steps[..|steps| - 1]), steps[|steps| - 1]);
    }
  }

  function Work(r: Closer): nat {
    2 * |r.todo| + |r.dying|
  }

  ghost function CloserStep(r: Closer, c: nat): Step
    requires r.todo != map[] || r.dying != map[]
  {
    if r.todo != map[] then var k :| k in r.todo; Hand(c, k) else var k :| k in r.dying; Remove(c, k)
  }

  lemma CloserHands(s: State, c: nat, k: Key)
    requires Enabled(s, Hand(c, k))
    ensures var s' := Apply(s, Hand(c, k));
            c in s'.closers && s'.closers[c].snapshot == s.closers[c].snapshot && Work(s'.closers[c]) < Work(s.closers[c])
  {
    var r := s.closers[c];
    assert r.todo == (r.todo - {k})[k := r.todo[k]];
    assert |r.dying[k := r.todo[k]]| <= |r.dying| + 1 by {
      assert r.dying[k := r.todo[k]].Keys == r.dying.Keys + {k};
    }
  }

  lemma CloserRemoves(s: State, c: nat, k: Key)
    requires Enabled(s, Remove(c, k))
    ensures var s' := Apply(s, Remove(c, k));
            c in s'.closers && s'.closers[c].snapshot == s.closers[c].snapshot && Work(s'.closers[c]) < Work(s.closers[c])
  {
    assert s.closers[c].dying == (s.closers[c].dying - {k})[k := s.closers[c].dying[k]];
  }

  lemma CloserWorks(s: State, c: nat)
    requires c in s.closers && (s.closers[c].todo != map[] || s.closers[c].dying != map[])
    ensures var s' := Apply(s, CloserStep(s.closers[c], c));
            c in s'.closers && s'.closers[c].snapshot == s.closers[c].snapshot && Work(s'.closers[c]) < Work(s.closers[c])
  {
    var step := CloserStep(s.closers[c], c);
    if step.Hand? {
      CloserHands(s, c, step.key);
    } else {
      CloserRemoves(s, c, step.key);
    }
  }

  predicate OfCloser(more: seq<Step>, c: nat) {
    forall step :: step in more ==> (step.Hand? || step.Remove?) && step.c == c
  }

  ghost predicate Ended(s: State, c: nat, snapshot: map<Key, Obj>) {
    c in s.closers && s.closers[c].todo == map[] && s.closers[c].dying == map[] && s.closers[c].snapshot == snapshot
  }

  ghost function From(s: State, more: seq<Step>): State
    decreases |more|
  {
    if more == [] then s else From(Apply(s, more[0]), more[1..])
  }

  lemma {:induction false} AfterMore(steps: seq<Step>, more: seq<Step>)
    ensures After(steps + more) == From(After(steps), more)
    decreases |more|
  {
    if more == [] {
      assert steps + more == steps;
    } else {
      var next := steps + [more[0]];
      assert steps + more == next + more[1..];
      AfterOneMore(steps, more[0]);
      AfterMore(next, more[1..]);
    }
  }

  lemma CloserEnds(s: State, c: nat) returns (more: seq<Step>)
    requires c in s.closers
    ensures OfCloser(more, c) && Ended(From(s, more), c, s.closers[c].snapshot)
    decreases Work(s.closers[c])
  {
    if s.closers[c].todo == map[] && s.closers[c].dying == map[] {
      more := [];
    } else {
      var step := CloserStep(s.closers[c], c);
      CloserWorks(s, c);
      var rest := CloserEnds(Apply(s, step), c);
      more := [step] + rest;
      assert more[1..] == rest;
    }
  }

  /** And it does get through: steps of its own lead there. */
  lemma {:induction false} CloseCanEnd(steps: seq<Step>, c: nat) returns (more: seq<Step>)
    requires c in After(steps).closers
    ensures OfCloser(more, c) && Ended(After(steps + more), c, After(steps).closers[c].snapshot)
  {
    more := CloserEnds(After(steps), c);
    AfterMore(steps, more);
  }

  // ---- no proxy is lost -----------------------------------------------------

  /** The worker has the proxy and has yet to register or to close it. */
  predicate HasProxy(o: Lane, p: nat) {
    o.phase == Built(p) || o.phase == DelThenClose(p) || o.phase == CloseAfterDel(p) || o.phase == CloseThenDel(p)
  }

  /** A proxy is registered, handed to Close, or in the hands of a worker. */
  ghost predicate Accounted(s: State, p: nat) {
    || p in s.handed
    || (exists k :: k in s.store && s.store[k] == Proxy(p))
    || (exists l :: l in s.lanes && HasProxy(s.lanes[l], p))
  }

  /** A worker builds only when nothing is registered, and finds under its key the
      proxy it works with or nothing. */
  predicate LaneFits(o: Lane, store: map<Key, Obj>, handed: set<nat>) {
    match o.phase
    case Building => o.key !in store
    case Built(_) => o.key !in store
    case Writing(p, _) => o.key in store ==> store[o.key] == Proxy(p)
    case DelThenClose(p) => o.key in store ==> store[o.key] == Proxy(p)
    case CloseThenDel(p) => o.key in store ==> store[o.key] == Proxy(p)
    case CloseAfterDel(_) => o.key !in store
    case DelAfterClose(p) => p in handed && (o.key in store ==> store[o.key] == Proxy(p))
    case _ => true
  }

  ghost predicate FitsInv(s: State) {
    && (forall l :: l in s.lanes ==> LaneFits(s.lanes[l], s.store, s.handed))
    && (forall k :: k in s.store ==> (s.store[k].Proxy? <==> k.Conn?))
  }

  lemma FitsRun(s: State, l: nat, failed: bool)
    requires Basic(s) && Alone(s) && FitsInv(s) && l in s.lanes
    ensures FitsInv(Handler(s, l, failed))
  {
    var s' := Handler(s, l, failed);
    forall u | u in s'.lanes ensures LaneFits(s'.lanes[u], s'.store, s'.handed) {
      assert LaneFits(s.lanes[u], s.store, s.handed);
      if u != l && s.lanes[u].key == s.lanes[l].key && Busy(s.lanes[u].phase) {
        assert !Busy(s.lanes[l].phase);
      }
    }
  }

  lemma FitsStep(s: State, step: Step)
    requires Basic(s) && Alone(s) && FitsInv(s)
    ensures FitsInv(Apply(s, step))
  {
    if step.Run? {
      if Enabled(s, step) { FitsRun(s, step.l, step.failed); }
    } else {
      forall u | u in Apply(s, step).lanes ensures LaneFits(Apply(s, step).lanes[u], Apply(s, step).store, Apply(s, step).handed) {
        if u in s.lanes { assert LaneFits(s.lanes[u], s.store, s.handed); }
      }
    }
  }

  lemma {:induction false} FitsAlways(steps: seq<Step>)
    requires !After(steps).late
    ensures FitsInv(After(steps))
  {
    if steps != [] {
      var before, last := steps[..|steps| - 1], steps[|steps| - 1];
      NeverUndone(After(before), last);
      FitsAlways(before);
      ReachableExactly(before);
      AloneAlways(before);
      FitsStep(After(before), last);
    }
  }

  lemma AccountedRun(s: State, l: nat, failed: bool, p: nat)
    requires FitsInv(s) && AllReachable(s) && l in s.lanes && s.lanes[l].key.Conn?
    requires p < s.nextProxy ==> Accounted(s, p)
    requires p < Handler(s, l, failed).nextProxy
    ensures Accounted(Handler(s, l, failed), p)
  {
    var s', o := Handler(s, l, failed), s.lanes[l];
    assert LaneFits(o, s.store, s.handed);
    if p == s.nextProxy || HasProxy(s'.lanes[l], p) {
      assert HasProxy(s'.lanes[l], p);
    } else if p in s.handed {
    } else if k :| k in s.store && s.store[k] == Proxy(p) {
      assert k in s'.store && s'.store[k] == Proxy(p);
    } else {
      var u :| u in s.lanes && HasProxy(s.lanes[u], p);
      if u != l {
        assert HasProxy(s'.lanes[u], p);
      } else if o.phase == Built(p) {
        assert s'.store[o.key] == Proxy(p);
      }
    }
  }

  lemma RemovedWasHanded(s: State, step: Step, p: nat)
    requires Basic(s) && Agree(s) && FitsInv(s) && step.Remove? && Enabled(s, step)
    requires step.key in s.store && s.store[step.key] == Proxy(p)
    ensures p in s.handed
  {
    assert AgreeOk(s.closers[step.c], s.store) && DyingOk(s.closers[step.c], s.handed);
  }

  lemma StoreOrHanded(s: State, step: Step, k: Key, p: nat)
    requires Basic(s) && Agree(s) && FitsInv(s) && !step.Run? && k in s.store && s.store[k] == Proxy(p)
    ensures var s' := Apply(s, step); p in s'.handed || (k in s'.store && s'.store[k] == Proxy(p))
  {
    if step.Remove? && Enabled(s, step) && step.key == k {
      RemovedWasHanded(s, step, p);
    }
  }

  lemma AccountedElse(s: State, step: Step, p: nat)
    requires Basic(s) && Agree(s) && FitsInv(s) && !step.Run? && Accounted(s, p)
    ensures Accounted(Apply(s, step), p)
  {
    var s' := Apply(s, step);
    assert s.handed <= s'.handed;
    if k :| k in s.store && s.store[k] == Proxy(p) {
      StoreOrHanded(s, step, k, p);
    } else if u :| u in s.lanes && HasProxy(s.lanes[u], p) {
      assert HasProxy(s'.lanes[u], p);
    }
  }

  /** If no session is opened late and no registration races a close, no proxy is ever
      lost: each one built is registered, has been handed to Close, or is in the hands
      of the worker that is about to register or close it. */
  lemma {:induction false} NoProxyIsLost(steps: seq<Step>, p: nat)
    requires !After(steps).late && !After(steps).raced && p < After(steps).nextProxy
    ensures Accounted(After(steps), p)
  {
    if steps != [] {
      var before, last := steps[..|steps| - 1], steps[|steps| - 1];
      var s := After(before);
      NeverUndone(s, last);
      if p < s.nextProxy {
        NoProxyIsLost(before, p);
      }
      ReachableExactly(before);
      InFlightIsReachable(before);
      FitsAlways(before);
      AgreeAlways(before);
      if last.Run? && Enabled(s, last) {
        AccountedRun(s, last.l, last.failed, p);
      } else if Enabled(s, last) {
        AccountedElse(s, last, p);
      }
    }
  }
}
