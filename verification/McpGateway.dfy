/** Who closes a session's MCP gateway (agent/controller/mcpproxy.go,
    `mcpGatewayFor` and `closeMCPProxyConnections`).

    One session, any number of callers of `mcpGatewayFor` and any number of
    cleanups. A caller either holds the session read lock for its whole call, as
    the packet path does, or takes no lock at all. A step is one operation on the
    gateway map, the once, a holder field or the session lock. */
module McpGateway {
  import opened Prelude

  datatype Once = Fresh | Running(builder: nat) | Finished

  /** How a holder left the gateway map. `saw` and `sawSink` are whether cleanup found
      its `gw` and its `sink` field set, once it has looked. */
  datatype Removal =
    | InMap
    | Evicted
    | Reclaimed(caller: nat)
    | Taken(cleaner: nat, saw: Option<bool>, sawSink: Option<bool>)

  datatype Holder = Holder(
    creator: nat,
    once: Once,
    gw: bool,        // the gw field is set: a gateway was built
    sink: bool,      // the sink field is set
    err: bool,
    sinkMade: bool,  // the sink's goroutine was started
    closes: nat,     // calls of gw.Close
    stops: nat,      // calls of sink.stop
    removal: Removal)

  /** What a call returns: the gateway of a holder, or an error. */
  datatype Result = Got(holder: nat) | SawClosed | BuildFailed(holder: nat)

  datatype Pc =
    | WaitRead
    | CheckClosed
    | Load
    | Enter(h: nat)       // about to call once.Do
    | Hooks(h: nat)       // inside once.Do from here ...
    | Build(h: nat)
    | StopFailed(h: nat)
    | KeepSink(h: nat)
    | Finish(h: nat)      // ... to here
    | ReadErr(h: nat)
    | Evict(h: nat)
    | Recheck(h: nat)
    | Reclaim(h: nat)
    | CloseIt(h: nat)
    | StopIt(h: nat)
    | Leave(result: Result)   // about to return, and to release the read lock if it has it
    | Gone(result: Result)

  datatype Caller = Caller(locked: bool, pc: Pc)

  datatype Cleaner = WantLock | Mark | Take | ReadGw(h: nat) | CloseGw(h: nat) | StopSink(h: nat) | Unlock | Done

  datatype State = State(
    slot: Option<nat>,            // the session's entry in mcpGateways
    holders: map<nat, Holder>,
    callers: map<nat, Caller>,
    cleaners: map<nat, Cleaner>,
    closed: bool)

  const START := State(None, map[], map[], map[], false)

  datatype Step =
    | CallArrives(c: nat, locked: bool)
    | CallStep(c: nat, ok: bool, newHolder: nat)
    | CloseArrives(k: nat)
    | CleanStep(k: nat)

  predicate HoldsRead(c: Caller) {
    c.locked && !c.pc.WaitRead? && !c.pc.Gone?
  }

  predicate HoldsWrite(k: Cleaner) {
    !k.WantLock? && !k.Done?
  }

  ghost predicate NoReader(callers: map<nat, Caller>) {
    forall c :: c in callers ==> !HoldsRead(callers[c])
  }

  ghost predicate NoWriter(cleaners: map<nat, Cleaner>) {
    forall k :: k in cleaners ==> !HoldsWrite(cleaners[k])
  }

  /** The caller waits: for the read lock, or for another caller inside the once. */
  ghost predicate CallBlocked(s: State, c: nat)
    requires c in s.callers
  {
    var pc := s.callers[c].pc;
    || (pc.WaitRead? && !NoWriter(s.cleaners))
    || (pc.Enter? && pc.h in s.holders && s.holders[pc.h].once.Running?)
    || pc.Gone?
  }

  ghost predicate Enabled(s: State, step: Step) {
    match step
    case CallArrives(c, _) => c !in s.callers
    case CallStep(c, _, newHolder) =>
      c in s.callers && !CallBlocked(s, c) && newHolder !in s.holders
      && (Target(s.callers[c].pc).Some? ==> Target(s.callers[c].pc).value in s.holders)
    case CloseArrives(k) => k !in s.cleaners
    case CleanStep(k) =>
      k in s.cleaners && !s.cleaners[k].Done?
      && (s.cleaners[k].WantLock? ==> NoReader(s.callers) && NoWriter(s.cleaners))
      && (CleanTarget(s.cleaners[k]).Some? ==> CleanTarget(s.cleaners[k]).value in s.holders)
      && (s.slot.Some? ==> s.slot.value in s.holders)
  }

  function Target(pc: Pc): Option<nat> {
    if pc.WaitRead? || pc.CheckClosed? || pc.Load? || pc.Leave? || pc.Gone? then None else Some(pc.h)
  }

  function CleanTarget(k: Cleaner): Option<nat> {
    if k.ReadGw? || k.CloseGw? || k.StopSink? then Some(k.h) else None
  }

  /** Where a caller goes. */
  function CallNext(pc: Pc, slot: Option<nat>, holders: map<nat, Holder>, closed: bool, ok: bool, newHolder: nat): Pc
    requires Target(pc).Some? ==> Target(pc).value in holders
  {
    match pc
    case WaitRead => CheckClosed
    case CheckClosed => if closed then Leave(SawClosed) else Load
    case Load => Enter(if slot.Some? then slot.value else newHolder)
    case Enter(h) => if holders[h].once.Fresh? then Hooks(h) else ReadErr(h)
    case Hooks(h) => if ok then Build(h) else Finish(h)
    case Build(h) => if ok then KeepSink(h) else StopFailed(h)
    case StopFailed(h) => Finish(h)
    case KeepSink(h) => Finish(h)
    case Finish(h) => ReadErr(h)
    case ReadErr(h) => if holders[h].err then Evict(h) else Recheck(h)
    case Evict(h) => Leave(BuildFailed(h))
    case Recheck(h) => if closed then Reclaim(h) else Leave(Got(h))
    case Reclaim(h) => if slot == Some(h) then CloseIt(h) else Leave(SawClosed)
    case CloseIt(h) => StopIt(h)
    case StopIt(_) => Leave(SawClosed)
    case Leave(r) => Gone(r)
    case Gone(r) => Gone(r)
  }

  /** What caller `c` does to its holder, which is in the map or not. */
  function CallHolder(o: Holder, c: nat, pc: Pc, ok: bool, inMap: bool): Holder {
    match pc
    case Enter(_) => if o.once.Fresh? then o.(once := Running(c)) else o
    case Hooks(_) => if ok then o.(sinkMade := true) else o.(err := true)
    case Build(_) => if ok then o.(gw := true) else o.(err := true)
    case StopFailed(_) => o.(stops := o.stops + 1)
    case KeepSink(_) => o.(sink := true)
    case Finish(_) => o.(once := Finished)
    case Evict(_) => if inMap then o.(removal := Evicted) else o
    case Reclaim(_) => if inMap then o.(removal := Reclaimed(c)) else o
    case CloseIt(_) => o.(closes := o.closes + 1)
    case StopIt(_) => o.(stops := o.stops + 1)
    case _ => o
  }

  function Call(s: State, c: nat, ok: bool, newHolder: nat): State
    requires c in s.callers
    requires Target(s.callers[c].pc).Some? ==> Target(s.callers[c].pc).value in s.holders
  {
    var pc := s.callers[c].pc;
    var at := Target(pc);
    s.(callers := s.callers[c := s.callers[c].(pc := CallNext(pc, s.slot, s.holders, s.closed, ok, newHolder))],
       holders := if at.Some? then s.holders[at.value := CallHolder(s.holders[at.value], c, pc, ok, s.slot == at)]
                  else if pc.Load? && s.slot.None?
                  then s.holders[newHolder := Holder(c, Fresh, false, false, false, false, 0, 0, InMap)]
                  else s.holders,
       slot := if (pc.Evict? || pc.Reclaim?) && s.slot == at then None
               else if pc.Load? && s.slot.None? then Some(newHolder) else s.slot)
  }

  function CleanNext(r: Cleaner, slot: Option<nat>, holders: map<nat, Holder>): Cleaner
    requires CleanTarget(r).Some? ==> CleanTarget(r).value in holders
  {
    match r
    case WantLock => Mark
    case Mark => Take
    case Take => if slot.Some? then ReadGw(slot.value) else Unlock
    case ReadGw(h) => if holders[h].gw then CloseGw(h) else StopSink(h)
    case CloseGw(h) => StopSink(h)
    case StopSink(_) => Unlock
    case Unlock => Done
    case Done => Done
  }

  /** What cleanup `k` does to the holder it takes or has taken. */
  function CleanHolder(o: Holder, k: nat, r: Cleaner): Holder {
    match r
    case Take => o.(removal := Taken(k, None, None))
    case ReadGw(_) => o.(removal := Taken(k, Some(o.gw), None))
    case CloseGw(_) => o.(closes := o.closes + 1)
    // stop on a nil sink does nothing
    case StopSink(_) =>
      o.(stops := o.stops + (if o.sink then 1 else 0),
         removal := if o.removal.Taken? then o.removal.(sawSink := Some(o.sink)) else o.removal)
    case _ => o
  }

  function Clean(s: State, k: nat): State
    requires k in s.cleaners
    requires CleanTarget(s.cleaners[k]).Some? ==> CleanTarget(s.cleaners[k]).value in s.holders
    requires s.slot.Some? ==> s.slot.value in s.holders
  {
    var r := s.cleaners[k];
    var at := if r.Take? then s.slot else CleanTarget(r);
    s.(cleaners := s.cleaners[k := CleanNext(r, s.slot, s.holders)],
       holders := if at.None? then s.holders else s.holders[at.value := CleanHolder(s.holders[at.value], k, r)],
       slot := if r.Take? then None else s.slot,
       closed := s.closed || r.Mark?)
  }

  ghost function Apply(s: State, step: Step): State {
    if !Enabled(s, step) then s else
    match step
    case CallArrives(c, locked) => s.(callers := s.callers[c := Caller(locked, if locked then WaitRead else Load)])
    case CallStep(c, ok, newHolder) => Call(s, c, ok, newHolder)
    case CloseArrives(k) => s.(cleaners := s.cleaners[k := WantLock])
    case CleanStep(k) => Clean(s, k)
  }

  ghost function After(steps: seq<Step>): State {
    if steps == [] then START
    else Apply(After(steps[..|steps| - 1]), steps[|steps| - 1])
  }

  // ---- the invariant --------------------------------------------------------

  /** Inside the once of `h`. */
  predicate Building(pc: Pc, h: nat) {
    pc == Hooks(h) || pc == Build(h) || pc == StopFailed(h) || pc == KeepSink(h) || pc == Finish(h)
  }

  /** Holding `h` and still to decide whether to remove it. */
  predicate Undecided(pc: Pc, h: nat) {
    Building(pc, h) || pc == Enter(h) || pc == ReadErr(h) || pc == Evict(h) || pc == Recheck(h) || pc == Reclaim(h)
  }

  function PcOf(callers: map<nat, Caller>, c: nat): Pc {
    if c in callers then callers[c].pc else Gone(SawClosed)
  }

  function CleanOf(cleaners: map<nat, Cleaner>, k: nat): Cleaner {
    if k in cleaners then cleaners[k] else Done
  }

  /** What the fields of a holder say, given how far its once got. */
  ghost predicate FieldsOk(h: nat, o: Holder, callers: map<nat, Caller>) {
    match o.once
    case Fresh => !o.gw && !o.sink && !o.err && !o.sinkMade && PcOf(callers, o.creator) == Enter(h)
    case Running(c) =>
      && Building(PcOf(callers, c), h)
      && (match PcOf(callers, c)
          case Hooks(_) => !o.gw && !o.sink && !o.err && !o.sinkMade
          case Build(_) => !o.gw && !o.sink && !o.err && o.sinkMade
          case StopFailed(_) => !o.gw && !o.sink && o.err && o.sinkMade && o.stops == 0
          case KeepSink(_) => o.gw && !o.sink && !o.err && o.sinkMade
          case _ => Outcome(o))
    case Finished => Outcome(o)
  }

  predicate Outcome(o: Holder) {
    if o.err then !o.gw && !o.sink && o.stops == (if o.sinkMade then 1 else 0) else o.gw && o.sink && o.sinkMade
  }

  /** A sink whose build did not fail is stopped by whoever removed its holder. */
  ghost predicate SinkOk(h: nat, o: Holder, callers: map<nat, Caller>) {
    && (o.removal.Taken? && o.removal.sawSink == Some(true) ==> o.sink)
    && (!o.err ==>
          o.stops == match o.removal
                     case Reclaimed(c) => if PcOf(callers, c) == CloseIt(h) || PcOf(callers, c) == StopIt(h) then 0 else 1
                     case Taken(_, _, sawSink) => if sawSink == Some(true) then 1 else 0
                     case _ => 0)
  }

  /** Whoever removed a holder from the map, and only they, closes its gateway. */
  ghost predicate RemovalOk(h: nat, o: Holder, slot: Option<nat>, callers: map<nat, Caller>,
                            cleaners: map<nat, Cleaner>)
  {
    && (o.removal.InMap? <==> slot == Some(h))
    && match o.removal
       case InMap => o.closes == 0
       case Evicted => o.err && o.once.Finished? && o.closes == 0
       case Reclaimed(c) =>
         && o.once.Finished? && o.gw
         && o.closes == (if PcOf(callers, c) == CloseIt(h) then 0 else 1)
       case Taken(k, None, sawSink) => o.closes == 0 && sawSink == None && CleanOf(cleaners, k) == ReadGw(h)
       case Taken(k, Some(saw), sawSink) =>
         && (sawSink.None? ==> CleanOf(cleaners, k) == CloseGw(h) || CleanOf(cleaners, k) == StopSink(h))
         && (saw ==> o.gw)
         && o.closes == (if !saw || CleanOf(cleaners, k) == CloseGw(h) then 0 else 1)
  }

  /** A holder in the map has a caller that will still decide about it, or it is
      healthy and cleanup has yet to look in the map. */
  ghost predicate WatchedOk(h: nat, o: Holder, callers: map<nat, Caller>, cleaners: map<nat, Cleaner>, closed: bool)
  {
    o.removal.InMap? ==>
      || Undecided(PcOf(callers, o.creator), h)
      || (o.once.Finished? && !o.err && (closed ==> exists k :: k in cleaners && cleaners[k].Take?))
  }

  ghost predicate ResultOk(r: Result, holders: map<nat, Holder>, closed: bool) {
    match r
    case Got(h) => h in holders && holders[h].once.Finished? && !holders[h].err
    case SawClosed => closed
    case BuildFailed(h) => h in holders && holders[h].once.Finished? && holders[h].err
  }

  ghost predicate CallerOk(c: nat, r: Caller, holders: map<nat, Holder>, closed: bool) {
    && (Target(r.pc).Some? ==>
          var h := Target(r.pc).value;
          h in holders &&
          var o := holders[h];
          && (Building(r.pc, h) ==> o.once == Running(c))
          && (!r.pc.Enter? && !Building(r.pc, h) ==> o.once.Finished?)
          && (r.pc.Evict? ==> o.err)
          && (r.pc.Recheck? || r.pc.Reclaim? ==> !o.err)
          && (r.pc.Reclaim? || r.pc.CloseIt? || r.pc.StopIt? ==> closed)
          && (r.pc.CloseIt? || r.pc.StopIt? ==> o.removal == Reclaimed(c)))
    && (r.pc.Leave? || r.pc.Gone? ==> ResultOk(r.pc.result, holders, closed))
    // on the packet path nothing after the closed check runs in a closed session
    && (HoldsRead(r) && !r.pc.CheckClosed? && r.pc != Leave(SawClosed) ==> !closed)
  }

  ghost predicate CleanerOk(k: nat, r: Cleaner, callers: map<nat, Caller>, cleaners: map<nat, Cleaner>,
                            holders: map<nat, Holder>, closed: bool)
  {
    && (HoldsWrite(r) ==> NoReader(callers))
    && (HoldsWrite(r) ==> forall k' :: k' in cleaners && k' != k ==> !HoldsWrite(cleaners[k']))
    && (!r.WantLock? && !r.Mark? ==> closed)
    && (CleanTarget(r).Some? ==>
          var h := CleanTarget(r).value;
          && h in holders
          && holders[h].removal.Taken? && holders[h].removal.cleaner == k && holders[h].removal.sawSink == None
          && (r.ReadGw? <==> holders[h].removal.saw.None?)
          && (r.CloseGw? ==> holders[h].removal.saw == Some(true)))
  }

  ghost predicate HolderOk(h: nat, o: Holder, slot: Option<nat>, callers: map<nat, Caller>,
                           cleaners: map<nat, Cleaner>, closed: bool)
  {
    && FieldsOk(h, o, callers) && SinkOk(h, o, callers)
    && RemovalOk(h, o, slot, callers, cleaners)
    && WatchedOk(h, o, callers, cleaners, closed)
  }

  ghost predicate HoldersOk(s: State) {
    && (s.slot.Some? ==> s.slot.value in s.holders)
    && (forall h :: h in s.holders ==> HolderOk(h, s.holders[h], s.slot, s.callers, s.cleaners, s.closed))
  }

  ghost predicate CallersOk(s: State) {
    forall c :: c in s.callers ==> CallerOk(c, s.callers[c], s.holders, s.closed)
  }

  ghost predicate CleanersOk(s: State) {
    forall k :: k in s.cleaners ==> CleanerOk(k, s.cleaners[k], s.callers, s.cleaners, s.holders, s.closed)
  }

  ghost predicate Inv(s: State) {
    HoldersOk(s) && CallersOk(s) && CleanersOk(s)
  }

  // ---- each step keeps it ---------------------------------------------------

  /** A holder the moving caller has nothing to do with. */
  lemma OtherHolder(h': nat, o: Holder, slot: Option<nat>, slot': Option<nat>, callers: map<nat, Caller>,
                    cleaners: map<nat, Cleaner>, closed: bool, c: nat, r: Caller, h: nat)
    requires HolderOk(h', o, slot, callers, cleaners, closed) && h' != h
    requires Target(PcOf(callers, c)) == None || Target(PcOf(callers, c)) == Some(h)
    requires Target(r.pc) == None || Target(r.pc) == Some(h)
    requires slot' == slot || ((slot == None || slot == Some(h)) && (slot' == None || slot' == Some(h)))
    ensures HolderOk(h', o, slot', callers[c := r], cleaners, closed)
  {
  }

  /** A change of a holder that what other callers and cleanups know survives. */
  predicate Compatible(o: Holder, o': Holder, c: nat) {
    && (o.once.Running? && o.once.builder != c ==> o'.once == o.once)
    && (o.once.Finished? ==> o'.once.Finished? && o'.err == o.err)
    && (o.removal.Reclaimed? || o.removal.Taken? ==> o'.removal == o.removal)
  }

  /** Caller `c`, busy with holder `h` or with none, moves on and leaves `h` as `o'`. */
  lemma CallMove(s: State, c: nat, r: Caller, h: nat, o': Holder, slot': Option<nat>)
    requires Inv(s) && c in s.callers && h in s.holders && r.locked == s.callers[c].locked
    requires Target(s.callers[c].pc) == None || Target(s.callers[c].pc) == Some(h)
    requires Target(r.pc) == None || Target(r.pc) == Some(h)
    requires slot' == s.slot || (s.slot == Some(h) && slot' == None)
    requires Compatible(s.holders[h], o', c)
    requires HoldsRead(r) && !HoldsRead(s.callers[c]) ==> NoWriter(s.cleaners)
    requires HolderOk(h, o', slot', s.callers[c := r], s.cleaners, s.closed)
    requires CallerOk(c, r, s.holders[h := o'], s.closed)
    ensures Inv(s.(callers := s.callers[c := r], holders := s.holders[h := o'], slot := slot'))
  {
    var s' := s.(callers := s.callers[c := r], holders := s.holders[h := o'], slot := slot');
    forall h' | h' in s'.holders
      ensures HolderOk(h', s'.holders[h'], slot', s'.callers, s.cleaners, s.closed) {
      if h' != h {
        OtherHolder(h', s.holders[h'], s.slot, slot', s.callers, s.cleaners, s.closed, c, r, h);
      }
    }
    assert HoldersOk(s');
    forall c' | c' in s'.callers ensures CallerOk(c', s'.callers[c'], s'.holders, s.closed) {
      if c' != c {
        OtherCaller(c', s.callers[c'], s.holders, s.closed, h, o', c);
      }
    }
    assert CallersOk(s');
    forall k | k in s.cleaners ensures CleanerOk(k, s.cleaners[k], s'.callers, s.cleaners, s'.holders, s.closed) {
      OtherCleaner(k, s.cleaners[k], s.callers, s.cleaners, s.holders, s.closed, c, r, h, o');
    }
  }

  lemma OtherCaller(c': nat, r: Caller, holders: map<nat, Holder>, closed: bool, h: nat, o': Holder, c: nat)
    requires CallerOk(c', r, holders, closed) && c' != c && (h in holders ==> Compatible(holders[h], o', c))
    ensures CallerOk(c', r, holders[h := o'], closed)
  {
  }

  lemma OtherCleaner(k: nat, r: Cleaner, callers: map<nat, Caller>, cleaners: map<nat, Cleaner>,
                     holders: map<nat, Holder>, closed: bool, c: nat, w: Caller, h: nat, o': Holder)
    requires CleanerOk(k, r, callers, cleaners, holders, closed) && k in cleaners && r == cleaners[k]
    requires h in holders ==> Compatible(holders[h], o', c)
    requires HoldsRead(w) ==> NoWriter(cleaners) || (c in callers && HoldsRead(callers[c]))
    ensures CleanerOk(k, r, callers[c := w], cleaners, holders[h := o'], closed)
  {
  }

  /** What caller `c`, busy with a holder, knows of it and of itself. */
  ghost predicate Knows(s: State, c: nat) {
    && c in s.callers && Target(s.callers[c].pc).Some?
    && s.callers[c].pc.h in s.holders
    && HolderOk(s.callers[c].pc.h, s.holders[s.callers[c].pc.h], s.slot, s.callers, s.cleaners, s.closed)
    && CallerOk(c, s.callers[c], s.holders, s.closed)
  }

  /** The step from `s` to `s'` touched only `c` and its holder `h`, and kept them right. */
  ghost predicate Moved(s: State, c: nat, h: nat, s': State)
    requires c in s.callers && h in s.holders
  {
    && c in s'.callers && h in s'.holders
    && s' == s.(callers := s.callers[c := s'.callers[c]], holders := s.holders[h := s'.holders[h]], slot := s'.slot)
    && s'.callers[c].locked == s.callers[c].locked
    && (Target(s'.callers[c].pc) == None || Target(s'.callers[c].pc) == Some(h))
    && (HoldsRead(s'.callers[c]) ==> HoldsRead(s.callers[c]))
    && (s'.slot == s.slot || (s.slot == Some(h) && s'.slot == None))
    && Compatible(s.holders[h], s'.holders[h], c)
    && HolderOk(h, s'.holders[h], s'.slot, s'.callers, s.cleaners, s.closed)
    && CallerOk(c, s'.callers[c], s'.holders, s.closed)
  }

  lemma EnterLocal(s: State, c: nat, ok: bool, n: nat)
    requires Knows(s, c) && !CallBlocked(s, c) && s.callers[c].pc.Enter?
    ensures Moved(s, c, s.callers[c].pc.h, Call(s, c, ok, n))
  {
    var h := s.callers[c].pc.h;
    assert s.holders == s.holders[h := s.holders[h]];
  }

  lemma ConstructLocal(s: State, c: nat, ok: bool, n: nat)
    requires Knows(s, c) && (s.callers[c].pc.Hooks? || s.callers[c].pc.Build?)
    ensures Moved(s, c, s.callers[c].pc.h, Call(s, c, ok, n))
  {
  }

  lemma ConcludeLocal(s: State, c: nat, ok: bool, n: nat)
    requires Knows(s, c) && (s.callers[c].pc.StopFailed? || s.callers[c].pc.KeepSink? || s.callers[c].pc.Finish?)
    ensures Moved(s, c, s.callers[c].pc.h, Call(s, c, ok, n))
  {
  }

  lemma BuildingLocal(s: State, c: nat, ok: bool, n: nat)
    requires Knows(s, c) && Building(s.callers[c].pc, s.callers[c].pc.h)
    ensures Moved(s, c, s.callers[c].pc.h, Call(s, c, ok, n))
  {
    if s.callers[c].pc.Hooks? || s.callers[c].pc.Build? {
      ConstructLocal(s, c, ok, n);
    } else {
      ConcludeLocal(s, c, ok, n);
    }
  }

  lemma EvictLocal(s: State, c: nat, ok: bool, n: nat)
    requires Knows(s, c) && s.callers[c].pc.Evict?
    ensures Moved(s, c, s.callers[c].pc.h, Call(s, c, ok, n))
  {
    var h := s.callers[c].pc.h;
    assert s.holders == s.holders[h := s.holders[h]];
  }

  lemma RecheckLocal(s: State, c: nat, ok: bool, n: nat)
    requires Knows(s, c) && s.callers[c].pc.Recheck?
    ensures Moved(s, c, s.callers[c].pc.h, Call(s, c, ok, n))
  {
  }

  lemma DecideLocal(s: State, c: nat, ok: bool, n: nat)
    requires Knows(s, c)
    requires s.callers[c].pc.ReadErr? || s.callers[c].pc.Evict? || s.callers[c].pc.Recheck?
    ensures Moved(s, c, s.callers[c].pc.h, Call(s, c, ok, n))
  {
    if s.callers[c].pc.Evict? {
      EvictLocal(s, c, ok, n);
    } else if s.callers[c].pc.Recheck? {
      RecheckLocal(s, c, ok, n);
    }
  }

  lemma ReclaimLocal(s: State, c: nat, ok: bool, n: nat)
    requires Knows(s, c) && s.callers[c].pc.Reclaim?
    ensures Moved(s, c, s.callers[c].pc.h, Call(s, c, ok, n))
  {
    var h := s.callers[c].pc.h;
    assert s.holders == s.holders[h := s.holders[h]];
  }

  lemma TeardownLocal(s: State, c: nat, ok: bool, n: nat)
    requires Knows(s, c)
    requires s.callers[c].pc.Reclaim? || s.callers[c].pc.CloseIt? || s.callers[c].pc.StopIt?
    ensures Moved(s, c, s.callers[c].pc.h, Call(s, c, ok, n))
  {
    if s.callers[c].pc.Reclaim? {
      ReclaimLocal(s, c, ok, n);
    }
  }

  /** Steps of a caller busy with a holder. */
  lemma BusyCallKeeps(s: State, c: nat, ok: bool, n: nat)
    requires Inv(s) && Enabled(s, CallStep(c, ok, n)) && Target(s.callers[c].pc).Some?
    ensures Inv(Call(s, c, ok, n))
  {
    var h, s' := s.callers[c].pc.h, Call(s, c, ok, n);
    assert HolderOk(h, s.holders[h], s.slot, s.callers, s.cleaners, s.closed);
    assert CallerOk(c, s.callers[c], s.holders, s.closed);
    if s.callers[c].pc.Enter? {
      EnterLocal(s, c, ok, n);
    } else if Building(s.callers[c].pc, h) {
      BuildingLocal(s, c, ok, n);
    } else if s.callers[c].pc.Reclaim? || s.callers[c].pc.CloseIt? || s.callers[c].pc.StopIt? {
      TeardownLocal(s, c, ok, n);
    } else {
      DecideLocal(s, c, ok, n);
    }
    CallMove(s, c, s'.callers[c], h, s'.holders[h], s'.slot);
  }

  /** Steps of a caller that has no holder and gets none. */
  lemma FreeCallKeeps(s: State, c: nat, ok: bool, n: nat)
    requires Inv(s) && Enabled(s, CallStep(c, ok, n))
    requires s.callers[c].pc.WaitRead? || s.callers[c].pc.CheckClosed? || s.callers[c].pc.Leave?
    ensures Inv(Call(s, c, ok, n))
  {
    var r := Call(s, c, ok, n).callers[c];
    forall h | h in s.holders ensures HolderOk(h, s.holders[h], s.slot, s.callers[c := r], s.cleaners, s.closed) {
      OtherHolder(h, s.holders[h], s.slot, s.slot, s.callers, s.cleaners, s.closed, c, r, h + 1);
    }
    forall k | k in s.cleaners
      ensures CleanerOk(k, s.cleaners[k], s.callers[c := r], s.cleaners, s.holders, s.closed) {
      assert CleanerOk(k, s.cleaners[k], s.callers, s.cleaners, s.holders, s.closed);
    }
    assert CallerOk(c, s.callers[c], s.holders, s.closed);
    FreeCaller(s, c, ok, n);
    assert CallersOk(Call(s, c, ok, n));
  }

  lemma FreeCaller(s: State, c: nat, ok: bool, n: nat)
    requires c in s.callers && CallerOk(c, s.callers[c], s.holders, s.closed)
    requires s.callers[c].pc.WaitRead? || s.callers[c].pc.CheckClosed? || s.callers[c].pc.Leave?
    ensures CallerOk(c, Call(s, c, ok, n).callers[c], s.holders, s.closed)
  {
  }

  /** LoadOrStore finding a holder. */
  lemma LoadKeeps(s: State, c: nat, ok: bool, n: nat)
    requires Inv(s) && Enabled(s, CallStep(c, ok, n)) && s.callers[c].pc.Load? && s.slot.Some?
    ensures Inv(Call(s, c, ok, n))
  {
    var r := Call(s, c, ok, n).callers[c];
    var h := s.slot.value;
    assert CallerOk(c, s.callers[c], s.holders, s.closed);
    assert HolderOk(h, s.holders[h], s.slot, s.callers, s.cleaners, s.closed);
    LoadedHolder(h, s.holders[h], s.slot, s.callers, s.cleaners, s.closed, c, r);
    assert s.holders == s.holders[h := s.holders[h]];
    CallMove(s, c, r, h, s.holders[h], s.slot);
  }

  /** A caller that had no holder finds `h` in the map. */
  lemma LoadedHolder(h: nat, o: Holder, slot: Option<nat>, callers: map<nat, Caller>, cleaners: map<nat, Cleaner>,
                     closed: bool, c: nat, r: Caller)
    requires HolderOk(h, o, slot, callers, cleaners, closed)
    requires c in callers && callers[c].pc.Load? && r.pc == Enter(h)
    ensures HolderOk(h, o, slot, callers[c := r], cleaners, closed)
  {
  }

  /** LoadOrStore storing a new one. */
  lemma StoreKeeps(s: State, c: nat, ok: bool, n: nat)
    requires Inv(s) && Enabled(s, CallStep(c, ok, n)) && s.callers[c].pc.Load? && s.slot.None?
    ensures Inv(Call(s, c, ok, n))
  {
    var s' := Call(s, c, ok, n);
    var r := s'.callers[c];
    forall h | h in s'.holders ensures HolderOk(h, s'.holders[h], s'.slot, s'.callers, s.cleaners, s.closed) {
      if h != n {
        OtherHolder(h, s.holders[h], s.slot, s'.slot, s.callers, s.cleaners, s.closed, c, r, n);
      }
    }
    assert HoldersOk(s');
    forall c' | c' in s'.callers ensures CallerOk(c', s'.callers[c'], s'.holders, s.closed) {
      assert CallerOk(c', s.callers[c'], s.holders, s.closed);
      if c' != c {
        OtherCaller(c', s.callers[c'], s.holders, s.closed, n, s'.holders[n], c);
      }
    }
    assert CallersOk(s');
    forall k | k in s.cleaners ensures CleanerOk(k, s.cleaners[k], s'.callers, s.cleaners, s'.holders, s.closed) {
      OtherCleaner(k, s.cleaners[k], s.callers, s.cleaners, s.holders, s.closed, c, r, n, s'.holders[n]);
    }
  }

  lemma CallArrivesKeeps(s: State, c: nat, locked: bool)
    requires Inv(s) && Enabled(s, CallArrives(c, locked))
    ensures Inv(Apply(s, CallArrives(c, locked)))
  {
    var s' := Apply(s, CallArrives(c, locked));
    forall h | h in s.holders ensures HolderOk(h, s.holders[h], s.slot, s'.callers, s.cleaners, s.closed) {
      OtherHolder(h, s.holders[h], s.slot, s.slot, s.callers, s.cleaners, s.closed, c, s'.callers[c], h + 1);
    }
    assert CallersOk(s');
    forall k | k in s.cleaners
      ensures CleanerOk(k, s.cleaners[k], s'.callers, s.cleaners, s.holders, s.closed) {
      assert CleanerOk(k, s.cleaners[k], s.callers, s.cleaners, s.holders, s.closed);
    }
  }

  /** A holder the moving cleanup has nothing to do with. */
  lemma HolderBesideCleaner(h': nat, o: Holder, slot: Option<nat>, slot': Option<nat>, callers: map<nat, Caller>,
                            cleaners: map<nat, Cleaner>, closed: bool, closed': bool, k: nat, r: Cleaner, h: nat)
    requires HolderOk(h', o, slot, callers, cleaners, closed) && h' != h
    requires CleanTarget(CleanOf(cleaners, k)) == None || CleanTarget(CleanOf(cleaners, k)) == Some(h)
    requires CleanTarget(r) == None || CleanTarget(r) == Some(h)
    requires slot' == slot || (slot == Some(h) && slot' == None)
    requires CleanOf(cleaners, k).Take? ==> slot' == None
    requires closed' == closed || r.Take?
    ensures HolderOk(h', o, slot', callers, cleaners[k := r], closed')
  {
    if o.removal.InMap? && closed && exists k' :: k' in cleaners && cleaners[k'].Take? {
      var k' :| k' in cleaners && cleaners[k'].Take?;
      assert k' != k ==> cleaners[k := r][k'].Take?;
    }
    assert r.Take? ==> k in cleaners[k := r] && cleaners[k := r][k].Take?;
  }

  predicate CompatibleClean(o: Holder, o': Holder, k: nat) {
    && o'.once == o.once && o'.err == o.err
    && (o.removal.Reclaimed? ==> o'.removal == o.removal)
    && (o.removal.Taken? && o.removal.cleaner != k ==> o'.removal == o.removal)
  }

  /** Cleanup `k`, busy with the holder `at` or with none, moves on to `s'`. */
  lemma CallerBesideCleaner(c: nat, r: Caller, holders: map<nat, Holder>, holders': map<nat, Holder>,
                            closed: bool, closed': bool, k: nat)
    requires CallerOk(c, r, holders, closed) && (closed ==> closed') && (closed' == closed || !HoldsRead(r))
    requires forall h :: h in holders ==> h in holders' && CompatibleClean(holders[h], holders'[h], k)
    ensures CallerOk(c, r, holders', closed')
  {
  }

  lemma CleanMove(s: State, k: nat, s': State, at: Option<nat>)
    requires Inv(s) && k in s.cleaners && k in s'.cleaners && (at.Some? ==> at.value in s.holders)
    requires s' == s.(cleaners := s.cleaners[k := s'.cleaners[k]], holders := s'.holders, slot := s'.slot, closed := s'.closed)
    requires match at
             case None => s'.holders == s.holders
             case Some(h) => && h in s'.holders && s'.holders == s.holders[h := s'.holders[h]]
                             && CompatibleClean(s.holders[h], s'.holders[h], k)
                             && HolderOk(h, s'.holders[h], s'.slot, s.callers, s'.cleaners, s'.closed)
    requires CleanTarget(s.cleaners[k]) == None || CleanTarget(s.cleaners[k]) == at
    requires CleanTarget(s'.cleaners[k]) == None || CleanTarget(s'.cleaners[k]) == at
    requires s'.slot == s.slot || (s.slot == at && s'.slot == None)
    requires s.cleaners[k].Take? ==> s'.slot == None
    requires s'.closed == s.closed || (s.cleaners[k].Mark? && s'.cleaners[k].Take? && s'.closed)
    requires HoldsWrite(s'.cleaners[k]) && !HoldsWrite(s.cleaners[k]) ==> NoWriter(s.cleaners)
    requires CleanerOk(k, s'.cleaners[k], s.callers, s'.cleaners, s'.holders, s'.closed)
    ensures Inv(s')
  {
    var r := s'.cleaners[k];
    forall h' | h' in s'.holders
      ensures HolderOk(h', s'.holders[h'], s'.slot, s.callers, s'.cleaners, s'.closed) {
      if at != Some(h') {
        var h := if at.Some? then at.value else h' + 1;
        HolderBesideCleaner(h', s.holders[h'], s.slot, s'.slot, s.callers, s.cleaners, s.closed, s'.closed, k, r, h);
      }
    }
    assert HoldersOk(s');
    assert CleanerOk(k, s.cleaners[k], s.callers, s.cleaners, s.holders, s.closed);
    forall c | c in s.callers ensures CallerOk(c, s.callers[c], s'.holders, s'.closed) {
      assert CallerOk(c, s.callers[c], s.holders, s.closed);
      CallerBesideCleaner(c, s.callers[c], s.holders, s'.holders, s.closed, s'.closed, k);
    }
    assert CallersOk(s');
    forall k' | k' in s'.cleaners
      ensures CleanerOk(k', s'.cleaners[k'], s.callers, s'.cleaners, s'.holders, s'.closed) {
      if k' != k {
        assert CleanerOk(k', s.cleaners[k'], s.callers, s.cleaners, s.holders, s.closed);
      }
    }
  }

  lemma CleanHolderKeeps(s: State, k: nat, h: nat)
    requires Enabled(s, CleanStep(k)) && h in s.holders
    requires if s.cleaners[k].Take? then s.slot == Some(h) else CleanTarget(s.cleaners[k]) == Some(h)
    requires HolderOk(h, s.holders[h], s.slot, s.callers, s.cleaners, s.closed)
    requires CleanerOk(k, s.cleaners[k], s.callers, s.cleaners, s.holders, s.closed)
    ensures var s' := Clean(s, k);
            && HolderOk(h, s'.holders[h], s'.slot, s.callers, s'.cleaners, s'.closed)
            && CompatibleClean(s.holders[h], s'.holders[h], k)
  {
  }

  lemma CleanKeeps(s: State, k: nat)
    requires Inv(s) && Enabled(s, CleanStep(k))
    ensures Inv(Clean(s, k))
  {
    var at := if s.cleaners[k].Take? then s.slot else CleanTarget(s.cleaners[k]);
    assert CleanerOk(k, s.cleaners[k], s.callers, s.cleaners, s.holders, s.closed);
    if at.Some? {
      assert HolderOk(at.value, s.holders[at.value], s.slot, s.callers, s.cleaners, s.closed);
      CleanHolderKeeps(s, k, at.value);
    }
    CleanMove(s, k, Clean(s, k), at);
  }

  lemma CloseArrivesKeeps(s: State, k: nat)
    requires Inv(s) && Enabled(s, CloseArrives(k))
    ensures Inv(Apply(s, CloseArrives(k)))
  {
    var s' := Apply(s, CloseArrives(k));
    forall h | h in s.holders ensures HolderOk(h, s.holders[h], s.slot, s.callers, s'.cleaners, s.closed) {
      HolderBesideCleaner(h, s.holders[h], s.slot, s.slot, s.callers, s.cleaners, s.closed, s.closed, k, WantLock, h + 1);
    }
    assert HoldersOk(s') && CallersOk(s');
    forall k' | k' in s.cleaners
      ensures CleanerOk(k', s.cleaners[k'], s.callers, s'.cleaners, s.holders, s.closed) {
      assert CleanerOk(k', s.cleaners[k'], s.callers, s.cleaners, s.holders, s.closed);
    }
  }

  lemma InvStep(s: State, step: Step)
    requires Inv(s)
    ensures Inv(Apply(s, step))
  {
    if Enabled(s, step) {
      match step
      case CallArrives(c, locked) => CallArrivesKeeps(s, c, locked);
      case CloseArrives(k) => CloseArrivesKeeps(s, k);
      case CleanStep(k) => CleanKeeps(s, k);
      case CallStep(c, ok, n) =>
        if Target(s.callers[c].pc).Some? {
          BusyCallKeeps(s, c, ok, n);
        } else if s.callers[c].pc.Load? {
          if s.slot.Some? { LoadKeeps(s, c, ok, n); } else { StoreKeeps(s, c, ok, n); }
        } else {
          FreeCallKeeps(s, c, ok, n);
        }
    }
  }

  lemma {:induction false} InvAlways(steps: seq<Step>)
    ensures Inv(After(steps))
  {
    if steps != [] {
      InvAlways(steps[..|steps| - 1]);
      InvStep(After(steps[..|steps| - 1]), steps[|steps| - 1]);
    }
  }

  // ---- any callers ----------------------------------------------------------

  /** No gateway is ever closed twice, whoever calls. */
  lemma {:induction false} ClosedAtMostOnce(steps: seq<Step>, h: nat)
    requires h in After(steps).holders
    ensures After(steps).holders[h].closes <= 1
  {
    InvAlways(steps);
    assert HolderOk(h, After(steps).holders[h], After(steps).slot, After(steps).callers, After(steps).cleaners,
                    After(steps).closed);
  }

  /** A caller that saw a failed build removes at most its own failed holder: the
      map afterwards is untouched, or empty where that holder was. */
  lemma {:induction false} EvictsOnlyItsOwnFailure(steps: seq<Step>, c: nat, ok: bool, n: nat)
    requires Enabled(After(steps), CallStep(c, ok, n)) && After(steps).callers[c].pc.Evict?
    ensures var s, s' := After(steps), Apply(After(steps), CallStep(c, ok, n));
            var h := s.callers[c].pc.h;
            && s.holders[h].err && !s.holders[h].gw
            && s'.slot == (if s.slot == Some(h) then None else s.slot)
            && forall h' :: h' in s.holders && h' != h ==> s'.holders[h'] == s.holders[h']
  {
    InvAlways(steps);
    var s := After(steps);
    assert CallerOk(c, s.callers[c], s.holders, s.closed);
    assert HolderOk(s.callers[c].pc.h, s.holders[s.callers[c].pc.h], s.slot, s.callers, s.cleaners, s.closed);
  }

  /** Everyone has finished and the session was closed. */
  ghost predicate Quiet(s: State) {
    && s.closed
    && (forall c :: c in s.callers ==> s.callers[c].pc.Gone?)
    && (forall k :: k in s.cleaners ==> s.cleaners[k].Done?)
  }

  /** When everything has finished nothing is left in the map. */
  lemma {:induction false} NothingLeftInMap(steps: seq<Step>)
    requires Quiet(After(steps))
    ensures After(steps).slot == None
  {
    InvAlways(steps);
    var s := After(steps);
    assert s.slot.Some? ==> HolderOk(s.slot.value, s.holders[s.slot.value], s.slot, s.callers, s.cleaners, s.closed);
  }

  /** And exactly which gateways are then stranded, and which sinks still run: those
      whose holder cleanup took out of the map and found the `gw`, or the `sink`,
      field still nil. Every other gateway built was closed exactly once and every
      other sink started was stopped exactly once. */
  lemma {:induction false} StrandedExactly(steps: seq<Step>, h: nat)
    requires Quiet(After(steps)) && h in After(steps).holders
    ensures var o := After(steps).holders[h];
            && (o.gw ==> o.closes == if o.removal.Taken? && o.removal.saw == Some(false) then 0 else 1)
            && (o.sinkMade ==> o.stops == if o.gw && o.removal.Taken? && o.removal.sawSink == Some(false) then 0 else 1)
            && (!o.gw ==> o.closes == 0) && (!o.sinkMade ==> o.stops == 0)
  {
    InvAlways(steps);
    NothingLeftInMap(steps);
    var s := After(steps);
    var o := s.holders[h];
    assert HolderOk(h, o, s.slot, s.callers, s.cleaners, s.closed);
    assert o.once.Finished? && Outcome(o) && !o.removal.InMap?;
    assert o.removal.Taken? ==> o.removal.sawSink.Some?;
    assert o.removal.Taken? ==> o.removal.sawSink == if o.removal.sawSink.value then Some(true) else Some(false);
  }

  // ---- callers on the packet path -------------------------------------------

  /** Every call of the run comes from the packet path. */
  predicate PacketPath(steps: seq<Step>) {
    forall i :: 0 <= i < |steps| && steps[i].CallArrives? ==> steps[i].locked
  }

  predicate PastTake(k: Cleaner) {
    !k.WantLock? && !k.Mark? && !k.Take?
  }

  ghost predicate LockedHolderOk(h: nat, o: Holder, cleaners: map<nat, Cleaner>) {
    && !o.removal.Reclaimed?
    && (o.removal.Taken? ==> o.once.Finished? && !o.err && o.removal.saw != Some(false))
    && (!o.gw && !o.err ==> o.stops == 0)
    // a sink with a gateway is stopped only after the gateway
    && (o.gw && o.stops > 0 ==> o.closes == 1)
    && (o.removal.Taken? && o.stops == 0 ==> CleanTarget(CleanOf(cleaners, o.removal.cleaner)) == Some(h))
  }

  ghost predicate LockedInv(s: State) {
    && (forall c :: c in s.callers ==> s.callers[c].locked)
    && (forall h :: h in s.holders ==> LockedHolderOk(h, s.holders[h], s.cleaners))
    && (forall k :: k in s.cleaners && PastTake(s.cleaners[k]) ==> s.slot == None)
    && (forall k, k' | k in s.cleaners && k' in s.cleaners && k != k' ::
          PastTake(s.cleaners[k]) && PastTake(s.cleaners[k']) ==> CleanTarget(s.cleaners[k']) == None)
  }

  /** The holder a locked caller is busy with. The caller cannot be reclaiming:
      it holds the read lock past the closed check, so the session is open. */
  lemma LockedLocal(s: State, c: nat, ok: bool, n: nat)
    requires Knows(s, c) && s.callers[c].locked
    requires LockedHolderOk(s.callers[c].pc.h, s.holders[s.callers[c].pc.h], s.cleaners)
    ensures var h := s.callers[c].pc.h;
            LockedHolderOk(h, Call(s, c, ok, n).holders[h], s.cleaners)
    ensures Call(s, c, ok, n).slot == s.slot || Call(s, c, ok, n).slot == None
  {
  }

  lemma LockedCall(s: State, c: nat, ok: bool, n: nat)
    requires Inv(s) && LockedInv(s) && Enabled(s, CallStep(c, ok, n))
    ensures LockedInv(Call(s, c, ok, n))
  {
    assert CallerOk(c, s.callers[c], s.holders, s.closed);
    forall k | k in s.cleaners && PastTake(s.cleaners[k]) ensures s.closed {
      assert CleanerOk(k, s.cleaners[k], s.callers, s.cleaners, s.holders, s.closed);
    }
    if Target(s.callers[c].pc).Some? {
      var h := s.callers[c].pc.h;
      assert HolderOk(h, s.holders[h], s.slot, s.callers, s.cleaners, s.closed);
      LockedBusyCall(s, c, ok, n);
    } else {
      LockedFreeCall(s, c, ok, n);
    }
  }

  lemma LockedBusyCall(s: State, c: nat, ok: bool, n: nat)
    requires Knows(s, c) && LockedInv(s)
    ensures LockedInv(Call(s, c, ok, n))
  {
    var h, s' := s.callers[c].pc.h, Call(s, c, ok, n);
    LockedLocal(s, c, ok, n);
    assert forall h' :: h' in s'.holders && h' != h ==> h' in s.holders && s'.holders[h'] == s.holders[h'];
  }

  lemma LockedFreeCall(s: State, c: nat, ok: bool, n: nat)
    requires c in s.callers && Target(s.callers[c].pc).None? && LockedInv(s) && n !in s.holders
    requires CallerOk(c, s.callers[c], s.holders, s.closed)
    requires forall k :: k in s.cleaners && PastTake(s.cleaners[k]) ==> s.closed
    ensures LockedInv(Call(s, c, ok, n))
  {
    var s' := Call(s, c, ok, n);
    assert forall h :: h in s'.holders && h != n ==> h in s.holders && s'.holders[h] == s.holders[h];
  }

  /** The holder a cleanup is about to take, or has taken, when nobody holds the
      read lock: its build is over and it has a gateway. */
  lemma LockedCleanLocal(s: State, k: nat, h: nat)
    requires s.slot.Some? ==> s.slot.value in s.holders
    requires k in s.cleaners && h in s.holders && HoldsWrite(s.cleaners[k])
    requires if s.cleaners[k].Take? then s.slot == Some(h) else CleanTarget(s.cleaners[k]) == Some(h)
    requires forall c :: c in s.callers ==> s.callers[c].locked && !HoldsRead(s.callers[c])
    requires HolderOk(h, s.holders[h], s.slot, s.callers, s.cleaners, s.closed)
    requires LockedHolderOk(h, s.holders[h], s.cleaners)
    requires CleanerOk(k, s.cleaners[k], s.callers, s.cleaners, s.holders, s.closed)
    ensures LockedHolderOk(h, Clean(s, k).holders[h], Clean(s, k).cleaners)
  {
  }

  lemma LockedClean(s: State, k: nat)
    requires Inv(s) && LockedInv(s) && Enabled(s, CleanStep(k))
    ensures LockedInv(Clean(s, k))
  {
    var s' := Clean(s, k);
    var at := if s.cleaners[k].Take? then s.slot else CleanTarget(s.cleaners[k]);
    assert CleanerOk(k, s.cleaners[k], s.callers, s.cleaners, s.holders, s.closed);
    if at.Some? {
      assert HolderOk(at.value, s.holders[at.value], s.slot, s.callers, s.cleaners, s.closed);
      LockedCleanLocal(s, k, at.value);
    }
    LockedCleanRest(s, k, at);
  }

  lemma LockedCleanRest(s: State, k: nat, at: Option<nat>)
    requires LockedInv(s) && Enabled(s, CleanStep(k))
    requires at == if s.cleaners[k].Take? then s.slot else CleanTarget(s.cleaners[k])
    requires CleanerOk(k, s.cleaners[k], s.callers, s.cleaners, s.holders, s.closed)
    requires at.Some? ==> LockedHolderOk(at.value, Clean(s, k).holders[at.value], Clean(s, k).cleaners)
    ensures LockedInv(Clean(s, k))
  {
    var s' := Clean(s, k);
    forall h | h in s'.holders && at != Some(h) ensures LockedHolderOk(h, s'.holders[h], s'.cleaners) {
      assert LockedHolderOk(h, s.holders[h], s.cleaners);
      assert s'.holders[h] == s.holders[h];
    }
  }

  lemma {:induction false} LockedAlways(steps: seq<Step>)
    requires PacketPath(steps)
    ensures LockedInv(After(steps))
  {
    if steps != [] {
      var before, last := steps[..|steps| - 1], steps[|steps| - 1];
      LockedAlways(before);
      InvAlways(before);
      var s := After(before);
      if Enabled(s, last) {
        match last
        case CallStep(c, ok, n) => LockedCall(s, c, ok, n);
        case CleanStep(k) => LockedClean(s, k);
        case CallArrives(_, _) =>
        case CloseArrives(_) =>
      }
    }
  }

  predicate Live(o: Holder) {
    o.gw && o.closes == 0
  }

  /** On the packet path a session never has two live gateways. */
  lemma {:induction false} AtMostOneLiveGateway(steps: seq<Step>, h: nat, h': nat)
    requires PacketPath(steps)
    requires h in After(steps).holders && h' in After(steps).holders
    requires Live(After(steps).holders[h]) && Live(After(steps).holders[h'])
    ensures h == h'
  {
    var s := After(steps);
    InvAlways(steps);
    LockedAlways(steps);
    assert HolderOk(h, s.holders[h], s.slot, s.callers, s.cleaners, s.closed);
    assert HolderOk(h', s.holders[h'], s.slot, s.callers, s.cleaners, s.closed);
    assert LockedHolderOk(h, s.holders[h], s.cleaners) && LockedHolderOk(h', s.holders[h'], s.cleaners);
  }

  /** On the packet path a sink that belongs to a gateway is stopped only after
      that gateway was closed. */
  lemma {:induction false} SinkStopsAfterGateway(steps: seq<Step>, h: nat)
    requires PacketPath(steps) && h in After(steps).holders
    requires After(steps).holders[h].gw && After(steps).holders[h].stops > 0
    ensures After(steps).holders[h].closes == 1
  {
    LockedAlways(steps);
    assert LockedHolderOk(h, After(steps).holders[h], After(steps).cleaners);
  }

  /** On the packet path, once any cleanup is over, every gateway built so far or
      ever after was closed exactly once, and every sink started was stopped. */
  lemma {:induction false} TornDownByCleanup(steps: seq<Step>, k: nat, h: nat)
    requires PacketPath(steps) && h in After(steps).holders
    requires k in After(steps).cleaners && After(steps).cleaners[k].Done?
    ensures var o := After(steps).holders[h];
            && (o.gw ==> o.closes == 1)
            && (o.sinkMade ==> o.stops >= 1)
            && After(steps).slot == None
  {
    var s := After(steps);
    InvAlways(steps);
    LockedAlways(steps);
    var o := s.holders[h];
    assert HolderOk(h, o, s.slot, s.callers, s.cleaners, s.closed) && LockedHolderOk(h, o, s.cleaners);
    assert CleanerOk(k, s.cleaners[k], s.callers, s.cleaners, s.holders, s.closed);
  }

  // ---- the stranding interleaving -------------------------------------------

  ghost predicate Reachable(s: State) {
    exists steps :: After(steps) == s
  }

  lemma Do(s: State, step: Step) returns (s': State)
    requires Reachable(s)
    ensures s' == Apply(s, step) && Reachable(s')
  {
    var steps :| After(steps) == s;
    s' := Apply(s, step);
    assert (steps + [step])[..|steps|] == steps;
    assert After(steps + [step]) == s';
  }

  /** A caller without the lock is building: the sink runs, there is no gateway. */
  lemma StrandingLoads() returns (s: State)
    ensures Reachable(s)
    ensures s == State(Some(0), map[0 := Holder(0, Fresh, false, false, false, false, 0, 0, InMap)],
                       map[0 := Caller(false, Enter(0))], map[], false)
  {
    assert After([]) == START;
    s := Do(START, CallArrives(0, false));
    s := Do(s, CallStep(0, true, 0));
  }

  lemma StrandingBegins() returns (s: State)
    ensures Reachable(s)
    ensures s == State(Some(0), map[0 := Holder(0, Running(0), false, false, false, true, 0, 0, InMap)],
                       map[0 := Caller(false, Build(0))], map[], false)
  {
    s := StrandingLoads();
    s := Do(s, CallStep(0, true, 1));
    s := Do(s, CallStep(0, true, 1));
  }

  /** Cleanup begins, and takes the half-built holder. */
  lemma StrandingTakes() returns (s: State)
    ensures Reachable(s)
    ensures s == State(None, map[0 := Holder(0, Running(0), false, false, false, true, 0, 0, Taken(0, None, None))],
                       map[0 := Caller(false, Build(0))], map[0 := ReadGw(0)], true)
  {
    s := StrandingBegins();
    s := Do(s, CloseArrives(0));
    s := Do(s, CleanStep(0));
    s := Do(s, CleanStep(0));
    s := Do(s, CleanStep(0));
  }

  /** It finds neither gateway nor sink, and ends. */
  lemma StrandingCleans() returns (s: State)
    ensures Reachable(s)
    ensures s == State(None, map[0 := Holder(0, Running(0), false, false, false, true, 0, 0, Taken(0, Some(false), Some(false)))],
                       map[0 := Caller(false, Build(0))], map[0 := Done], true)
  {
    s := StrandingTakes();
    s := Do(s, CleanStep(0));
    s := Do(s, CleanStep(0));
    s := Do(s, CleanStep(0));
  }

  /** The build succeeds. */
  lemma StrandingBuilt() returns (s: State)
    ensures Reachable(s)
    ensures s == State(None, map[0 := Holder(0, Running(0), true, true, false, true, 0, 0, Taken(0, Some(false), Some(false)))],
                       map[0 := Caller(false, Finish(0))], map[0 := Done], true)
  {
    s := StrandingCleans();
    s := Do(s, CallStep(0, true, 1));
    s := Do(s, CallStep(0, true, 1));
  }

  lemma StrandingBuilds() returns (s: State)
    ensures Reachable(s)
    ensures s == State(None, map[0 := Holder(0, Finished, true, true, false, true, 0, 0, Taken(0, Some(false), Some(false)))],
                       map[0 := Caller(false, ReadErr(0))], map[0 := Done], true)
  {
    s := StrandingBuilt();
    s := Do(s, CallStep(0, true, 1));
  }

  /** The caller sees the session closed and loses the CompareAndDelete. */
  lemma StrandingRechecks() returns (s: State)
    ensures Reachable(s)
    ensures s == State(None, map[0 := Holder(0, Finished, true, true, false, true, 0, 0, Taken(0, Some(false), Some(false)))],
                       map[0 := Caller(false, Reclaim(0))], map[0 := Done], true)
  {
    s := StrandingBuilds();
    s := Do(s, CallStep(0, true, 1));
    assert s.callers == map[0 := Caller(false, Recheck(0))];
    s := Do(s, CallStep(0, true, 1));
  }

  lemma StrandingEnds() returns (s: State)
    ensures Reachable(s)
    ensures s == State(None, map[0 := Holder(0, Finished, true, true, false, true, 0, 0, Taken(0, Some(false), Some(false)))],
                       map[0 := Caller(false, Gone(SawClosed))], map[0 := Done], true)
  {
    s := StrandingRechecks();
    s := Do(s, CallStep(0, true, 1));
    assert s.callers == map[0 := Caller(false, Leave(SawClosed))];
    s := Do(s, CallStep(0, true, 1));
  }

  ghost predicate Stranded(s: State, h: nat) {
    Quiet(s) && h in s.holders && Live(s.holders[h]) && s.holders[h].sinkMade && s.holders[h].stops == 0
  }

  /** Without the session lock a gateway can be stranded: there is a run after
      which everything has finished, a gateway was built, and nobody ever closed
      it or stopped its sink. */
  lemma LockFreeCallerCanStrand()
    ensures exists steps :: Stranded(After(steps), 0)
  {
    var s := StrandingEnds();
    var steps :| After(steps) == s;
    assert Stranded(After(steps), 0);
  }
}
