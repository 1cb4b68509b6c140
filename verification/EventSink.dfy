/** The audit event sink of an MCP session (agent/controller/mcpproxy.go): a
    bounded queue that drops when full, one goroutine that sends, and a stop that
    asks that goroutine to flush and leave.

    `Sink` is the channel, the goroutine's position and the history; its steps are
    every way the emitters, the goroutine and `stop` can interleave. The class
    `EventSink` is the imperative object; its methods are proved against those
    steps. */
module EventSinks {
  import opened Prelude

  const QUEUE_SIZE := 1024

  type Event = seq<Byte>

  /** Where the drain goroutine is. A clean exit is one whose flush saw the queue
      empty; the other one follows a send error. */
  datatype Drain = Receiving | Sending | Flushing | FlushSending | Exited(clean: bool)

  datatype Sink = Sink(
    queue: seq<Event>,
    stopped: bool,
    drain: Drain,
    dropped: nat,
    // history
    offered: seq<Event>,
    took: seq<bool>,          // which of the offered were accepted
    attempted: seq<Event>,    // handed to Send
    results: seq<bool>,       // how the finished sends ended
    mark: nat)                // accepted when the sink was stopped

  const START := Sink([], false, Receiving, 0, [], [], [], [], 0)

  datatype Step =
    | Offer(e: Event)
    | Stop
    | Take               // the goroutine receives an event and starts sending it
    | Finish(ok: bool)   // the send returns
    | SeeQuit            // `select` picks the quit channel
    | FlushEnd           // the flush finds the queue empty

  function Apply(s: Sink, step: Step): Sink {
    match step
    case Offer(e) =>
      var room := |s.queue| < QUEUE_SIZE;
      s.(queue := if room then s.queue + [e] else s.queue, dropped := if room then s.dropped else s.dropped + 1,
         offered := s.offered + [e], took := s.took + [room])
    case Stop => if s.stopped then s else s.(stopped := true, mark := |s.attempted| + |s.queue|)
    case Take =>
      if s.queue == [] || !(s.drain.Receiving? || s.drain.Flushing?) then s
      else s.(queue := s.queue[1..], attempted := s.attempted + [s.queue[0]],
              drain := if s.drain.Receiving? then Sending else FlushSending)
    case Finish(ok) =>
      if s.drain.Sending? then s.(drain := Receiving, results := s.results + [ok])
      else if s.drain.FlushSending? then s.(drain := if ok then Flushing else Exited(false), results := s.results + [ok])
      else s
    case SeeQuit => if s.drain.Receiving? && s.stopped then s.(drain := Flushing) else s
    case FlushEnd => if s.drain.Flushing? && s.queue == [] then s.(drain := Exited(true)) else s
  }

  function Run(s: Sink, steps: seq<Step>): Sink {
    if steps == [] then s else Apply(Run(s, steps[..|steps| - 1]), steps[|steps| - 1])
  }

  // ---- what every run keeps -------------------------------------------------

  /** The elements that were chosen, in order. */
  function Chosen(xs: seq<Event>, choice: seq<bool>): seq<Event>
    requires |choice| <= |xs|
  {
    if choice == [] then []
    else
      var n := |choice| - 1;
      Chosen(xs, choice[..n]) + if choice[n] then [xs[n]] else []
  }

  lemma {:induction false} ChosenPrefix(xs: seq<Event>, x: Event, choice: seq<bool>)
    requires |choice| <= |xs|
    ensures Chosen(xs + [x], choice) == Chosen(xs, choice)
  {
    if choice != [] {
      ChosenPrefix(xs, x, choice[..|choice| - 1]);
    }
  }

  function Accepted(s: Sink): seq<Event>
    requires |s.took| <= |s.offered|
  {
    Chosen(s.offered, s.took)
  }

  ghost predicate Sound(s: Sink) {
    && |s.took| == |s.offered|
    // what was attempted and what is queued is what was accepted, in order
    && s.attempted + s.queue == Accepted(s)
    // every other offer was counted as dropped
    && |s.offered| == |Accepted(s)| + s.dropped
    && |s.queue| <= QUEUE_SIZE
    // one send at a time
    && |s.attempted| == |s.results| + (if s.drain.Sending? || s.drain.FlushSending? then 1 else 0)
    // the goroutine leaves only when asked to
    && (!s.drain.Receiving? && !s.drain.Sending? ==> s.stopped)
    && (s.stopped ==> s.mark <= |Accepted(s)|)
    // and, short of a send error while flushing, with nothing from before the stop left
    && (s.drain == Exited(true) ==> s.mark <= |s.attempted|)
    && (s.drain == Exited(false) ==> s.results != [] && !s.results[|s.results| - 1])
  }

  lemma OfferKeeps(s: Sink, e: Event)
    requires Sound(s)
    ensures Sound(Apply(s, Offer(e)))
    ensures Accepted(Apply(s, Offer(e))) == Accepted(s) + if |s.queue| < 1024 then [e] else []
  {
    var s' := Apply(s, Offer(e));
    ChosenPrefix(s.offered, e, s.took);
    assert s'.took[..|s.took|] == s.took;
    assert s.attempted + (s.queue + [e]) == (s.attempted + s.queue) + [e];
  }

  lemma SoundStep(s: Sink, step: Step)
    requires Sound(s)
    ensures Sound(Apply(s, step))
  {
    match step
    case Offer(e) => OfferKeeps(s, e);
    case Take =>
      if s.queue != [] {
        assert s.attempted + s.queue == (s.attempted + [s.queue[0]]) + s.queue[1..];
      }
    case _ =>
  }

  /** Over every run: attempted sends followed by the queue are the accepted events
      in emission order, offered events are accepted or counted as dropped, the
      queue stays within its bound, and a goroutine that left its flush without a
      send error attempted everything accepted before the stop. */
  lemma {:induction false} SinkHistory(steps: seq<Step>)
    ensures Sound(Run(START, steps))
  {
    if steps != [] {
      SinkHistory(steps[..|steps| - 1]);
      SoundStep(Run(START, steps[..|steps| - 1]), steps[|steps| - 1]);
    }
  }

  lemma {:induction false} RunAppend(s: Sink, a: seq<Step>, b: seq<Step>)
    ensures Run(s, a + b) == Run(Run(s, a), b)
  {
    if b == [] {
      assert a + b == a;
    } else {
      RunAppend(s, a, b[..|b| - 1]);
      assert (a + b)[..|a + b| - 1] == a + b[..|b| - 1] && (a + b)[|a + b| - 1] == b[|b| - 1];
    }
  }

  /** What a step adds never changes what was already accepted or attempted, and
      once the goroutine has left nothing more is attempted. */
  lemma HistoryGrows(s: Sink, step: Step)
    requires Sound(s)
    ensures var s' := Apply(s, step);
            && s.attempted <= s'.attempted && Accepted(s) <= Accepted(s') && s.results <= s'.results
            && (s.drain.Exited? ==> s'.attempted == s.attempted && s'.drain == s.drain)
            && (s.stopped ==> s'.stopped && s'.mark == s.mark)
  {
    if step.Offer? { OfferKeeps(s, step.e); }
  }

  lemma {:induction false} HistoryGrowsRun(s: Sink, steps: seq<Step>)
    requires Sound(s)
    ensures Sound(Run(s, steps))
    ensures var s' := Run(s, steps);
            && s.attempted <= s'.attempted && Accepted(s) <= Accepted(s')
            && (s.drain.Exited? ==> s'.attempted == s.attempted && s'.drain == s.drain)
            && (s.stopped ==> s'.stopped && s'.mark == s.mark)
  {
    if steps != [] {
      HistoryGrowsRun(s, steps[..|steps| - 1]);
      SoundStep(Run(s, steps[..|steps| - 1]), steps[|steps| - 1]);
      HistoryGrows(Run(s, steps[..|steps| - 1]), steps[|steps| - 1]);
    }
  }

  /** Stopping twice, or emitting around the stop, changes nothing about it: every
      event accepted by the moment of the first stop is attempted, in order, by a
      goroutine that leaves cleanly, whatever happens between and after. */
  lemma FlushedByCleanExit(before: seq<Step>, after: seq<Step>)
    requires !Run(START, before).stopped
    requires Run(START, before + [Stop] + after).drain == Exited(true)
    ensures Sound(Run(START, before))
    ensures Accepted(Run(START, before)) <= Run(START, before + [Stop] + after).attempted
  {
    var s := Run(START, before);
    var s' := Apply(s, Stop);
    SinkHistory(before);
    SoundStep(s, Stop);
    RunAppend(START, before, [Stop]);
    RunAppend(START, before + [Stop], after);
    assert Run(s, [Stop]) == s' by { assert [Stop][..0] == []; }
    HistoryGrowsRun(s', after);
    var end := Run(s', after);
    assert Accepted(end) == end.attempted + end.queue;
  }

  /** `s'` follows from `s` by some run of steps. */
  ghost predicate Happened(s: Sink, s': Sink) {
    exists steps :: Run(s, steps) == s'
  }

  lemma HappenedRun(s: Sink, mid: Sink, s': Sink)
    requires Happened(s, mid) && Happened(mid, s')
    ensures Happened(s, s')
  {
    var a :| Run(s, a) == mid;
    var b :| Run(mid, b) == s';
    RunAppend(s, a, b);
    assert Run(s, a + b) == s';
  }

  lemma HappenedStep(s: Sink, mid: Sink, step: Step)
    requires Happened(s, mid)
    ensures Happened(s, Apply(mid, step))
  {
    OneStep(mid, step);
    HappenedRun(s, mid, Apply(mid, step));
  }

  lemma HappenedNone(s: Sink)
    ensures Happened(s, s)
  {
    assert Run(s, []) == s;
  }

  lemma OneStep(s: Sink, step: Step)
    ensures Run(s, [step]) == Apply(s, step)
  {
    assert [step][..0] == [];
  }

  /** A send error while flushing does lose events accepted before the stop. */
  lemma FlushErrorLoses()
    ensures exists s :: Happened(START, s) && s.drain == Exited(false) && |s.attempted| < s.mark
  {
    HappenedNone(START);
    var s := START;
    HappenedStep(START, s, Offer([]));
    s := Apply(s, Offer([]));
    HappenedStep(START, s, Offer([]));
    s := Apply(s, Offer([]));
    HappenedStep(START, s, Stop);
    s := Apply(s, Stop);
    HappenedStep(START, s, SeeQuit);
    s := Apply(s, SeeQuit);
    HappenedStep(START, s, Take);
    s := Apply(s, Take);
    HappenedStep(START, s, Finish(false));
    s := Apply(s, Finish(false));
    assert s.drain == Exited(false) && |s.attempted| < s.mark;
  }

  // ---- the object -----------------------------------------------------------

  /** What the other goroutines do before the drain goroutine's next move, whether
      its `select` takes quit when an event is ready too, and how its send ends. */
  datatype Turn = Turn(arrivals: seq<Event>, stop: bool, quitFirst: bool, ok: bool)

  /** The sink after one emitter after another: only the queue, the drop count and
      the history of offers change. */
  ghost function OfferAll(s: Sink, es: seq<Event>): (s': Sink)
    ensures s'.drain == s.drain && s'.attempted == s.attempted && s'.results == s.results && s'.stopped == s.stopped
    ensures s.queue <= s'.queue && (es == [] ==> s'.queue == s.queue)
  {
    if es == [] then s else Apply(OfferAll(s, es[..|es| - 1]), Offer(es[|es| - 1]))
  }

  /** The sink after its goroutine took the oldest event and its send ended. */
  ghost function SendOne(s: Sink, ok: bool): (s': Sink)
    requires s.queue != [] && (s.drain.Receiving? || s.drain.Flushing?)
    ensures s'.queue == s.queue[1..] && s'.stopped == s.stopped && s'.dropped == s.dropped
    ensures s'.drain == if s.drain.Receiving? then Receiving else if ok then Flushing else Exited(false)
    ensures s'.results == s.results + [ok]
  {
    Apply(Apply(s, Take), Finish(ok))
  }

  /** There are at least `n` results and those from `n` on are successes. */
  predicate AllOkSince(results: seq<bool>, n: nat) {
    n <= |results| && forall i | n <= i < |results| :: results[i]
  }

  class EventSink {
    var queue: seq<Event>
    var quit: bool
    var dropped: nat
    ghost var log: Sink

    /** The log is a run of the steps above, and it is what the fields hold. */
    ghost predicate Valid()
      reads this
    {
      Happened(START, log) && Sound(log) && log.queue == queue && log.stopped == quit && log.dropped == dropped
    }

    constructor ()
      ensures Valid() && log == START
    {
      queue, quit, dropped, log := [], false, 0, START;
      HappenedNone(START);
    }

    ghost method Record(step: Step)
      requires Happened(START, log) && Sound(log)
      modifies `log
      ensures log == Apply(old(log), step) && Happened(START, log) && Sound(log)
    {
      SoundStep(log, step);
      HappenedStep(START, log, step);
      log := Apply(log, step);
    }

    /** Never blocks: the event is queued, or dropped and counted. */
    method Enqueue(e: Event)
      requires Valid()
      modifies this
      ensures Valid() && log == Apply(old(log), Offer(e))
      ensures quit == old(quit)
    {
      if |queue| < QUEUE_SIZE {
        queue := queue + [e];
      } else {
        dropped := dropped + 1;
      }
      Record(Offer(e));
    }

    /** Safe to call twice. */
    method Stop()
      requires Valid()
      modifies this
      ensures Valid() && log == Apply(old(log), Step.Stop)
      ensures quit && queue == old(queue)
    {
      quit := true;
      Record(Step.Stop);
    }

    method EnqueueAll(es: seq<Event>)
      requires Valid()
      modifies this
      ensures Valid() && log == OfferAll(old(log), es) && quit == old(quit)
    {
      for i := 0 to |es|
        invariant Valid() && log == OfferAll(old(log), es[..i]) && quit == old(quit)
      {
        assert es[..i + 1][..i] == es[..i];
        Enqueue(es[i]);
      }
      assert es[..|es|] == es;
    }

    /** The other goroutines' turn. */
    method Interfere(turn: Turn)
      requires Valid()
      modifies this
      ensures Valid()
      ensures log == if turn.stop then Apply(OfferAll(old(log), turn.arrivals), Step.Stop) else OfferAll(old(log), turn.arrivals)
      ensures log.drain == old(log.drain) && log.attempted == old(log.attempted) && log.results == old(log.results)
      ensures old(queue) <= queue && (turn.arrivals == [] ==> queue == old(queue))
      ensures quit <==> old(quit) || turn.stop
    {
      EnqueueAll(turn.arrivals);
      if turn.stop {
        Stop();
      }
    }

    /** Takes the oldest event and sends it. */
    method SendNext(ok: bool)
      requires Valid() && queue != [] && (log.drain.Receiving? || log.drain.Flushing?)
      modifies this
      ensures Valid()
      ensures log == SendOne(old(log), ok)
      ensures queue == old(queue)[1..] && quit == old(quit)
      ensures log.drain == if old(log.drain).Receiving? then Receiving else if ok then Flushing else Exited(false)
      ensures log.results == old(log.results) + [ok]
    {
      queue := queue[1..];
      Record(Take);
      Record(Finish(ok));
    }

    /** One round of the flush; how it ended, if it was the last. */
    method FlushRound(turn: Turn) returns (end: Option<bool>)
      requires Valid() && log.drain.Flushing?
      modifies this
      ensures Valid() && log.drain == (if end.None? then Flushing else Exited(end.value))
      ensures log.results == old(log.results) + match end { case None => [true] case Some(clean) => if clean then [] else [false] }
      ensures end.None? && turn.arrivals == [] ==> |queue| < |old(queue)|
      ensures end == Some(true) ==> queue == []
    {
      Interfere(turn);
      if queue == [] {
        Record(FlushEnd);
        return Some(true);
      }
      SendNext(turn.ok);
      return if turn.ok then None else Some(false);
    }

    /** Writes what is buffered and returns; gives up on the first error. Events may
        go on arriving for as long as there are turns. */
    method Flush(turns: seq<Turn>) returns (clean: bool)
      requires Valid() && log.drain.Flushing?
      modifies this
      ensures Valid() && log.drain == Exited(clean)
      ensures clean ==> queue == []
      ensures AllOkSince(log.results, |old(log.results)|) <==> clean
    {
      var i := 0;
      while true
        invariant i <= |turns| && Valid() && log.drain.Flushing?
        invariant AllOkSince(log.results, |old(log.results)|)
        decreases |turns| - i, |queue|
      {
        var turn := Turn([], false, false, true);
        if i < |turns| {
          turn := turns[i];
          i := i + 1;
        }
        var end := FlushRound(turn);
        if end.Some? {
          return end.value;
        }
      }
    }

    /** One round of the drain goroutine's `select`; true when it takes quit. */
    method Round(turn: Turn) returns (leaving: bool)
      requires Valid() && log.drain.Receiving?
      modifies this
      ensures Valid() && log.drain == (if leaving then Flushing else Receiving)
      ensures old(quit) || turn.stop ==> quit
      ensures quit && turn.quitFirst ==> leaving
      ensures leaving ==> quit
      ensures !leaving ==> |log.results| + |queue| >= |old(log.results)| + |old(queue)|
      ensures !leaving ==> if queue == [] then |log.results| >= |old(log.results)| else |log.results| == |old(log.results)| + 1
    {
      Interfere(turn);
      if quit && (turn.quitFirst || queue == []) {
        Record(SeeQuit);
        return true;
      }
      if queue != [] {
        SendNext(turn.ok);
      }
      return false;
    }

    /** The drain goroutine, for as many turns as it is given: it leaves once its
        `select` takes quit, and until then works off the backlog, an event a turn. */
    method Drain(turns: seq<Turn>) returns (exited: bool)
      requires Valid() && log.drain.Receiving?
      modifies this
      ensures Valid()
      ensures if exited then log.drain.Exited? && quit else log.drain.Receiving?
      ensures exited || forall i | 0 <= i < |turns| && turns[i].quitFirst :: !turns[i].stop && !old(quit)
      ensures exited || |log.results| - |old(log.results)| >= |turns| || |log.results| - |old(log.results)| >= |old(queue)|
    {
      for i := 0 to |turns|
        invariant Valid() && log.drain.Receiving? && (old(quit) ==> quit)
        invariant forall j | 0 <= j < i && turns[j].quitFirst :: !turns[j].stop && !old(quit)
        invariant |log.results| - |old(log.results)| + |queue| >= |old(queue)|
        invariant |log.results| - |old(log.results)| >= i || |log.results| - |old(log.results)| >= |old(queue)|
      {
        var leaving := Round(turns[i]);
        if leaving {
          var clean := Flush(turns[i + 1..]);
          return true;
        }
      }
      return false;
    }
  }
}
