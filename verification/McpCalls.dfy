/** What calls of `mcpGatewayFor` return, and that calls and cleanups come to an end
    (agent/controller/mcpproxy.go). */
module McpCalls {
  import opened Prelude
  import opened McpGateway

  // ---- what a call returns --------------------------------------------------

  /** A call that returns a gateway returns one that was built without an error; one
      that returns an error saw the session closed, or its holder's build failed. */
  lemma {:induction false} ReturnsGateway(steps: seq<Step>, c: nat)
    requires c in After(steps).callers && After(steps).callers[c].pc.Gone?
    ensures var s := After(steps);
            match s.callers[c].pc.result
            case Got(h) => h in s.holders && s.holders[h].gw && s.holders[h].sink && !s.holders[h].err
            case SawClosed => s.closed
            case BuildFailed(h) => h in s.holders && s.holders[h].err && !s.holders[h].gw
  {
    InvAlways(steps);
    var s := After(steps);
    assert CallerOk(c, s.callers[c], s.holders, s.closed);
    match s.callers[c].pc.result
    case Got(h) => assert HolderOk(h, s.holders[h], s.slot, s.callers, s.cleaners, s.closed);
    case BuildFailed(h) => assert HolderOk(h, s.holders[h], s.slot, s.callers, s.cleaners, s.closed);
    case SawClosed =>
  }

  /** The step is a build of `h` that fails. */
  ghost predicate FailsToBuild(s: State, step: Step, h: nat) {
    && step.CallStep? && !step.ok && Enabled(s, step)
    && (s.callers[step.c].pc == Hooks(h) || s.callers[step.c].pc == Build(h))
  }

  ghost predicate BuildHasFailed(steps: seq<Step>, h: nat) {
    steps != [] &&
    var before, last := steps[..|steps| - 1], steps[|steps| - 1];
    BuildHasFailed(before, h) || FailsToBuild(After(before), last, h)
  }

  ghost predicate HasErr(holders: map<nat, Holder>, h: nat) {
    h in holders && holders[h].err
  }

  lemma ErrCall(s: State, c: nat, ok: bool, n: nat, h: nat)
    requires Enabled(s, CallStep(c, ok, n))
    ensures HasErr(Call(s, c, ok, n).holders, h) <==> HasErr(s.holders, h) || FailsToBuild(s, CallStep(c, ok, n), h)
  {
  }

  lemma ErrClean(s: State, k: nat, h: nat)
    requires Enabled(s, CleanStep(k))
    ensures HasErr(Clean(s, k).holders, h) <==> HasErr(s.holders, h)
  {
  }

  lemma ErrStep(s: State, step: Step, h: nat)
    ensures HasErr(Apply(s, step).holders, h) <==> HasErr(s.holders, h) || FailsToBuild(s, step, h)
  {
    if Enabled(s, step) {
      match step
      case CallStep(c, ok, n) => ErrCall(s, c, ok, n, h);
      case CleanStep(k) => ErrClean(s, k, h);
      case _ =>
    }
  }

  /** And a build has failed exactly when its hooks or the gateway could not be made. */
  lemma {:induction false} ErrExactly(steps: seq<Step>, h: nat)
    ensures HasErr(After(steps).holders, h) <==> BuildHasFailed(steps, h)
  {
    if steps != [] {
      var before, last := steps[..|steps| - 1], steps[|steps| - 1];
      ErrExactly(before, h);
      ErrStep(After(before), last, h);
    }
  }

  // ---- on the packet path ---------------------------------------------------

  predicate Current(pc: Pc, slot: Option<nat>) {
    (pc.Leave? || pc.Gone?) && pc.result.Got? ==> slot == Some(pc.result.holder)
  }

  /** While the session is open no holder has been taken by a cleanup, and every
      gateway returned is the one in the map. */
  ghost predicate CurrentInv(s: State) {
    !s.closed ==>
      && (forall h :: h in s.holders ==> !s.holders[h].removal.Taken?)
      && (forall c :: c in s.callers ==> Current(s.callers[c].pc, s.slot))
  }

  lemma CurrentBusy(s: State, c: nat, ok: bool, n: nat)
    requires Knows(s, c) && CallersOk(s) && CurrentInv(s) && LockedInv(s)
    ensures CurrentInv(Call(s, c, ok, n))
  {
    var h := s.callers[c].pc.h;
    assert LockedHolderOk(h, s.holders[h], s.cleaners);
  }

  lemma CurrentFree(s: State, c: nat, ok: bool, n: nat)
    requires c in s.callers && Target(s.callers[c].pc).None? && CurrentInv(s)
    ensures CurrentInv(Call(s, c, ok, n))
  {
  }

  lemma CurrentCall(s: State, c: nat, ok: bool, n: nat)
    requires Inv(s) && LockedInv(s) && CurrentInv(s) && Enabled(s, CallStep(c, ok, n))
    ensures CurrentInv(Call(s, c, ok, n))
  {
    if Target(s.callers[c].pc).Some? {
      var h := s.callers[c].pc.h;
      assert CallerOk(c, s.callers[c], s.holders, s.closed);
      assert HolderOk(h, s.holders[h], s.slot, s.callers, s.cleaners, s.closed);
      CurrentBusy(s, c, ok, n);
    } else {
      CurrentFree(s, c, ok, n);
    }
  }

  lemma CurrentClean(s: State, k: nat)
    requires Inv(s) && CurrentInv(s) && Enabled(s, CleanStep(k))
    ensures CurrentInv(Clean(s, k))
  {
    assert CleanerOk(k, s.cleaners[k], s.callers, s.cleaners, s.holders, s.closed);
  }

  lemma {:induction false} CurrentAlways(steps: seq<Step>)
    requires PacketPath(steps)
    ensures CurrentInv(After(steps))
  {
    if steps != [] {
      var before, last := steps[..|steps| - 1], steps[|steps| - 1];
      var s := After(before);
      CurrentAlways(before);
      InvAlways(before);
      LockedAlways(before);
      if Enabled(s, last) {
        match last
        case CallStep(c, ok, n) => CurrentCall(s, c, ok, n);
        case CleanStep(k) => CurrentClean(s, k);
        case CallArrives(_, _) =>
        case CloseArrives(_) =>
      }
    }
  }

  /** On the packet path the gateway a call is about to return is live. */
  lemma {:induction false} ReturnedGatewayIsLive(steps: seq<Step>, c: nat)
    requires PacketPath(steps) && c in After(steps).callers
    requires After(steps).callers[c].pc.Leave? && After(steps).callers[c].pc.result.Got?
    ensures var s, h := After(steps), After(steps).callers[c].pc.result.holder;
            !s.closed && s.slot == Some(h) && h in s.holders && Live(s.holders[h])
  {
    var s, h := After(steps), After(steps).callers[c].pc.result.holder;
    InvAlways(steps);
    LockedAlways(steps);
    CurrentAlways(steps);
    assert CallerOk(c, s.callers[c], s.holders, s.closed) && Current(s.callers[c].pc, s.slot);
    assert HolderOk(h, s.holders[h], s.slot, s.callers, s.cleaners, s.closed);
  }

  /** And while the session is open all calls have returned the same one. */
  lemma {:induction false} SameGateway(steps: seq<Step>, c: nat, c': nat)
    requires PacketPath(steps) && !After(steps).closed && c in After(steps).callers && c' in After(steps).callers
    requires After(steps).callers[c].pc.Gone? && After(steps).callers[c'].pc.Gone?
    requires !After(steps).callers[c].pc.result.BuildFailed? && !After(steps).callers[c'].pc.result.BuildFailed?
    ensures var r, r' := After(steps).callers[c].pc.result, After(steps).callers[c'].pc.result;
            r.Got? && r == r' && After(steps).slot == Some(r.holder)
  {
    CurrentAlways(steps);
    ReturnsGateway(steps, c);
    ReturnsGateway(steps, c');
    assert Current(After(steps).callers[c].pc, After(steps).slot) && Current(After(steps).callers[c'].pc, After(steps).slot);
  }

  // ---- calls and cleanups end -----------------------------------------------

  /** Steps of callers and cleanups already under way lead from `After(steps)` to `s`. */
  ghost predicate Leads(steps: seq<Step>, s: State) {
    exists more :: Moves(more) && After(steps + more) == s
  }

  predicate Moves(more: seq<Step>) {
    forall step :: step in more ==> step.CallStep? || step.CleanStep?
  }

  lemma LeadsNowhere(steps: seq<Step>)
    ensures Leads(steps, After(steps))
  {
    assert steps + [] == steps;
    assert Moves([]);
  }

  lemma LeadsOn(steps: seq<Step>, s: State, step: Step) returns (s': State)
    requires Leads(steps, s) && (step.CallStep? || step.CleanStep?)
    ensures s' == Apply(s, step) && Leads(steps, s')
  {
    var more :| Moves(more) && After(steps + more) == s;
    s' := Apply(s, step);
    assert (steps + (more + [step]))[..|steps + more|] == steps + more;
    assert Moves(more + [step]) && After(steps + (more + [step])) == s';
  }

  lemma LeadsInv(steps: seq<Step>, s: State)
    requires Leads(steps, s)
    ensures Inv(s)
  {
    var more :| Moves(more) && After(steps + more) == s;
    InvAlways(steps + more);
  }

  function CleanLeft(k: Cleaner): nat {
    match k
    case WantLock => 7
    case Mark => 6
    case Take => 5
    case ReadGw(_) => 4
    case CloseGw(_) => 3
    case StopSink(_) => 2
    case Unlock => 1
    case Done => 0
  }

  /** A cleanup that holds the lock runs to its end. */
  lemma WriterEnds(steps: seq<Step>, s: State, k: nat) returns (s': State)
    requires Leads(steps, s) && k in s.cleaners && HoldsWrite(s.cleaners[k])
    ensures Leads(steps, s') && s'.callers == s.callers && k in s'.cleaners && s'.cleaners == s.cleaners[k := Done]
    decreases CleanLeft(s.cleaners[k])
  {
    LeadsInv(steps, s);
    assert CleanerOk(k, s.cleaners[k], s.callers, s.cleaners, s.holders, s.closed);
    s' := LeadsOn(steps, s, CleanStep(k));
    if !s'.cleaners[k].Done? {
      s' := WriterEnds(steps, s', k);
    }
  }

  lemma NoWriterLeft(steps: seq<Step>, s: State) returns (s': State)
    requires Leads(steps, s)
    ensures Leads(steps, s') && s'.callers == s.callers && NoWriter(s'.cleaners) && s'.cleaners.Keys == s.cleaners.Keys
    ensures forall k :: k in s.cleaners && s.cleaners[k].WantLock? ==> s'.cleaners[k].WantLock?
  {
    s' := s;
    if k :| k in s.cleaners && HoldsWrite(s.cleaners[k]) {
      LeadsInv(steps, s);
      assert CleanerOk(k, s.cleaners[k], s.callers, s.cleaners, s.holders, s.closed);
      s' := WriterEnds(steps, s, k);
    }
  }

  function CallLeft(pc: Pc): nat {
    match pc
    case WaitRead => 14
    case CheckClosed => 13
    case Load => 12
    case Enter(_) => 11
    case Hooks(_) => 10
    case Build(_) => 9
    case StopFailed(_) => 8
    case KeepSink(_) => 8
    case Finish(_) => 7
    case ReadErr(_) => 6
    case Evict(_) => 5
    case Recheck(_) => 5
    case Reclaim(_) => 4
    case CloseIt(_) => 3
    case StopIt(_) => 2
    case Leave(_) => 1
    case Gone(_) => 0
  }

  lemma NextIsCloser(pc: Pc, slot: Option<nat>, holders: map<nat, Holder>, closed: bool, n: nat)
    requires !pc.Gone? && (Target(pc).Some? ==> Target(pc).value in holders)
    ensures var pc' := CallNext(pc, slot, holders, closed, true, n);
            && CallLeft(pc') < CallLeft(pc)
            && forall h :: Building(pc, h) && !pc.Finish? ==> Building(pc', h)
  {
  }

  lemma CallerMoves(steps: seq<Step>, s: State, c: nat) returns (s': State)
    requires Leads(steps, s) && c in s.callers && !CallBlocked(s, c)
    ensures Leads(steps, s') && s'.cleaners == s.cleaners
    ensures c in s'.callers && s'.callers == s.callers[c := s'.callers[c]]
    ensures s'.callers[c].locked == s.callers[c].locked && CallLeft(s'.callers[c].pc) < CallLeft(s.callers[c].pc)
    ensures s.callers[c].pc.Finish? ==> s.callers[c].pc.h in s'.holders && s'.holders[s.callers[c].pc.h].once.Finished?
    ensures forall h :: Building(s.callers[c].pc, h) && !s.callers[c].pc.Finish? ==> Building(s'.callers[c].pc, h)
  {
    LeadsInv(steps, s);
    assert CallerOk(c, s.callers[c], s.holders, s.closed);
    var n := Unused(s.holders);
    NextIsCloser(s.callers[c].pc, s.slot, s.holders, s.closed, n);
    s' := LeadsOn(steps, s, CallStep(c, true, n));
  }

  /** A caller inside a once comes out of it. */
  lemma BuilderEnds(steps: seq<Step>, s: State, b: nat, h: nat) returns (s': State)
    requires Leads(steps, s) && b in s.callers && Building(s.callers[b].pc, h)
    ensures Leads(steps, s') && s'.cleaners == s.cleaners && h in s'.holders && s'.holders[h].once.Finished?
    ensures b in s'.callers && s'.callers == s.callers[b := s'.callers[b]] && s'.callers[b].locked == s.callers[b].locked
    decreases CallLeft(s.callers[b].pc)
  {
    var last := s.callers[b].pc.Finish?;
    s' := CallerMoves(steps, s, b);
    if !last {
      s' := BuilderEnds(steps, s', b, h);
    }
  }

  function Readers(callers: map<nat, Caller>): set<nat> {
    set c | c in callers && HoldsRead(callers[c])
  }

  /** Where only `c` and `b` moved, and neither is a new reader, no reader is new. */
  lemma NoNewReader(callers: map<nat, Caller>, callers': map<nat, Caller>, c: nat)
    requires c in callers && c in callers' && callers' == callers[c := callers'[c]]
    requires callers'[c].locked == callers[c].locked && !callers[c].pc.WaitRead?
    requires callers[c].pc.Gone? ==> callers'[c].pc.Gone?
    ensures Readers(callers') <= Readers(callers)
  {
  }

  /** Brings a caller to where its next step is not blocked. */
  lemma CallerUnblocked(steps: seq<Step>, s: State, c: nat) returns (s': State)
    requires Leads(steps, s) && c in s.callers && !s.callers[c].pc.Gone?
    ensures Leads(steps, s') && c in s'.callers && s'.callers[c] == s.callers[c] && !CallBlocked(s', c)
    ensures !s.callers[c].pc.WaitRead? ==> s'.cleaners == s.cleaners && Readers(s'.callers) <= Readers(s.callers)
  {
    s' := s;
    var pc := s.callers[c].pc;
    if pc.WaitRead? {
      s' := NoWriterLeft(steps, s);
    } else if CallBlocked(s, c) {
      LeadsInv(steps, s);
      assert HolderOk(pc.h, s.holders[pc.h], s.slot, s.callers, s.cleaners, s.closed);
      var b := s.holders[pc.h].once.builder;
      s' := BuilderEnds(steps, s, b, pc.h);
      NoNewReader(s.callers, s'.callers, b);
    }
  }

  lemma CallFinishes(steps: seq<Step>, s: State, c: nat) returns (s': State)
    requires Leads(steps, s) && c in s.callers
    ensures Leads(steps, s') && c in s'.callers && s'.callers[c].pc.Gone?
    ensures !s.callers[c].pc.WaitRead? ==> s'.cleaners == s.cleaners && Readers(s'.callers) <= Readers(s.callers)
    decreases CallLeft(s.callers[c].pc)
  {
    s' := s;
    if !s.callers[c].pc.Gone? {
      s' := CallerUnblocked(steps, s, c);
      var before := s'.callers;
      s' := CallerMoves(steps, s', c);
      if !s.callers[c].pc.WaitRead? {
        NoNewReader(before, s'.callers, c);
      }
      s' := CallFinishes(steps, s', c);
    }
  }

  /** Every call can return: from every reachable state finitely many steps of the
      callers and cleanups already under way bring it to its end. */
  lemma {:induction false} CallCanReturn(steps: seq<Step>, c: nat)
    requires c in After(steps).callers
    ensures exists more :: Moves(more) && c in After(steps + more).callers && After(steps + more).callers[c].pc.Gone?
  {
    LeadsNowhere(steps);
    var s' := CallFinishes(steps, After(steps), c);
    var more :| Moves(more) && After(steps + more) == s';
  }

  lemma ReadersLeave(steps: seq<Step>, s: State) returns (s': State)
    requires Leads(steps, s)
    ensures Leads(steps, s') && NoReader(s'.callers) && s'.cleaners == s.cleaners
    decreases Readers(s.callers)
  {
    s' := s;
    if c :| c in Readers(s.callers) {
      s' := CallFinishes(steps, s, c);
      assert c !in Readers(s'.callers);
      s' := ReadersLeave(steps, s');
    } else {
      assert forall c :: c in s.callers ==> c !in Readers(s.callers);
    }
  }

  /** And so can every cleanup. */
  lemma {:induction false} CleanupCanEnd(steps: seq<Step>, k: nat)
    requires k in After(steps).cleaners
    ensures exists more :: Moves(more) && k in After(steps + more).cleaners && After(steps + more).cleaners[k].Done?
  {
    LeadsNowhere(steps);
    var s := After(steps);
    if s.cleaners[k].WantLock? {
      s := NoWriterLeft(steps, s);
      s := ReadersLeave(steps, s);
      LeadsInv(steps, s);
      s := LeadsOn(steps, s, CleanStep(k));
    }
    if !s.cleaners[k].Done? {
      s := WriterEnds(steps, s, k);
    }
    var more :| Moves(more) && After(steps + more) == s;
  }
}
