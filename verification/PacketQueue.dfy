/** The per-connection packet FIFO (agent/controller/packetqueue.go).

    `Fifo` is the data the queue's mutex guards and `Push`/`Take` are its two
    critical sections. `Queue` adds the worker goroutines and the history, and
    its steps are every way the recv loop and the workers can interleave. The
    class `PacketQueue` is the imperative object; its methods are proved against
    those steps. */
module PacketQueues {
  import opened Prelude

  const MAX_QUEUED_PACKETS := 4096
  const MAX_QUEUED_BYTES := 67108864

  datatype Packet = Packet(sid: string, conn: string, payload: seq<Byte>)

  function TotalBytes(ps: seq<Packet>): nat {
    if ps == [] then 0 else TotalBytes(ps[..|ps| - 1]) + |ps[|ps| - 1].payload|
  }

  lemma {:induction false} TotalBytesTail(ps: seq<Packet>)
    requires ps != []
    ensures TotalBytes(ps) == |ps[0].payload| + TotalBytes(ps[1..])
  {
    if |ps| > 1 {
      var front := ps[..|ps| - 1];
      TotalBytesTail(front);
      assert front[1..] == ps[1..][..|ps[1..]| - 1];
    } else {
      assert ps[..0] == [] && ps[1..] == [];
    }
  }

  // ---- the critical sections ------------------------------------------------

  datatype Fifo = Fifo(packets: seq<Packet>, queuedBytes: int, running: bool)

  const EMPTY := Fifo([], 0, false)

  predicate Overflows(f: Fifo, p: Packet) {
    |f.packets| >= MAX_QUEUED_PACKETS || f.queuedBytes + |p.payload| > MAX_QUEUED_BYTES
  }

  /** The queue after `push`; the caller must start a worker exactly when
      `running` went from false to true. */
  function Push(f: Fifo, p: Packet): Fifo {
    if Overflows(f, p) then f
    else Fifo(f.packets + [p], f.queuedBytes + |p.payload|, true)
  }

  /** The queue after one locked section of `drain`: the oldest packet leaves,
      or an empty queue stops running. */
  function Take(f: Fifo): Fifo {
    if f.packets == [] then f.(running := false)
    else Fifo(f.packets[1..], f.queuedBytes - |f.packets[0].payload|, f.running)
  }

  // ---- every interleaving ---------------------------------------------------

  /** `idle` workers are about to lock the queue and each packet in `busy` is
      being handled by one worker. Nothing here limits how many there are. */
  datatype Queue = Queue(fifo: Fifo, idle: nat, busy: seq<Packet>,
                         accepted: seq<Packet>, handled: seq<Packet>)

  datatype Step =
    | Arrive(p: Packet)   // the recv loop pushes
    | Fetch               // an idle worker runs one locked section
    | Finish(i: nat)      // the handler of busy[i] returns

  const START := Queue(EMPTY, 0, [], [], [])

  function Apply(q: Queue, step: Step): Queue {
    match step
    case Arrive(p) =>
      if Overflows(q.fifo, p) then q
      else q.(fifo := Push(q.fifo, p), accepted := q.accepted + [p],
              idle := if q.fifo.running then q.idle else q.idle + 1)
    case Fetch =>
      if q.idle == 0 then q
      else if q.fifo.packets == [] then q.(fifo := Take(q.fifo), idle := q.idle - 1)
      else q.(fifo := Take(q.fifo), idle := q.idle - 1, busy := q.busy + [q.fifo.packets[0]])
    case Finish(i) =>
      if i >= |q.busy| then q
      else q.(idle := q.idle + 1, busy := q.busy[..i] + q.busy[i + 1..],
              handled := q.handled + [q.busy[i]])
  }

  /** The queue after a run of steps from a fresh one; a step that cannot happen
      leaves it alone, so every list of steps is a run. */
  function After(steps: seq<Step>): Queue {
    if steps == [] then START
    else Apply(After(steps[..|steps| - 1]), steps[|steps| - 1])
  }

  ghost predicate Orderly(q: Queue) {
    // one worker while running, none otherwise
    && q.idle + |q.busy| == (if q.fifo.running then 1 else 0)
    // no lost wakeup
    && (!q.fifo.running ==> q.fifo.packets == [])
    // nothing lost, duplicated or reordered
    && q.handled + q.busy + q.fifo.packets == q.accepted
    // accounting and both caps
    && q.fifo.queuedBytes == TotalBytes(q.fifo.packets) <= MAX_QUEUED_BYTES
    && |q.fifo.packets| <= MAX_QUEUED_PACKETS
  }

  lemma OrderlyArrive(q: Queue, p: Packet)
    requires Orderly(q)
    ensures Orderly(Apply(q, Arrive(p)))
  {
    var ps := q.fifo.packets;
    assert (ps + [p])[..|ps|] == ps && (ps + [p])[|ps|] == p;
    assert (q.handled + q.busy) + (ps + [p]) == (q.handled + q.busy + ps) + [p];
  }

  lemma OrderlyFetch(q: Queue)
    requires Orderly(q)
    ensures Orderly(Apply(q, Fetch))
  {
    if q.idle != 0 && q.fifo.packets != [] {
      var ps := q.fifo.packets;
      TotalBytesTail(ps);
      assert q.busy == [] && q.busy + [ps[0]] == [ps[0]];
      assert q.handled + [ps[0]] + ps[1..] == q.handled + ps;
    }
  }

  lemma OrderlyStep(q: Queue, step: Step)
    requires Orderly(q)
    ensures Orderly(Apply(q, step))
  {
    match step
    case Arrive(p) => OrderlyArrive(q, p);
    case Fetch => OrderlyFetch(q);
    case Finish(i) =>
      if i < |q.busy| {
        assert q.busy == [q.busy[0]];
      }
  }

  /** Over every interleaving of pushes, fetches and handler returns, handled
      packets, the one in flight and the queue are the accepted packets in order;
      there is exactly one worker while running and none otherwise; a queue that
      is not running is empty; and both bounds hold. */
  lemma {:induction false} QueueHistory(steps: seq<Step>)
    ensures Orderly(After(steps))
  {
    if steps != [] {
      QueueHistory(steps[..|steps| - 1]);
      OrderlyStep(After(steps[..|steps| - 1]), steps[|steps| - 1]);
    }
  }

  /** At any point of any run, a packet is accepted exactly when fewer than 4096 wait
      and the payloads waiting, with its own, are at most 64 MiB. */
  lemma {:induction false} AcceptsExactly(steps: seq<Step>, p: Packet)
    ensures var q, q' := After(steps), Apply(After(steps), Arrive(p));
            q'.accepted == if |q.fifo.packets| < 4096 && TotalBytes(q.fifo.packets) + |p.payload| <= 64 * 1024 * 1024
                           then q.accepted + [p] else q.accepted
  {
    QueueHistory(steps);
  }

  /** What is left for the worker, and its next step. */
  function Work(q: Queue): nat {
    3 * |q.fifo.packets| + 2 * |q.busy| + if q.fifo.running then 1 else 0
  }

  function WorkerStep(q: Queue): Step {
    if q.busy != [] then Finish(0) else Fetch
  }

  lemma WorkShrinks(q: Queue)
    requires Orderly(q) && q.fifo.running
    ensures var q' := Apply(q, WorkerStep(q)); Work(q') < Work(q) && q'.accepted == q.accepted
  {
  }

  /** Whatever is waiting or in flight, the worker gets through it: some steps of
      worker and handlers alone lead to a queue in which everything accepted has been
      handled and no worker is left. */
  lemma {:induction false} WorkerCatchesUp(steps: seq<Step>) returns (more: seq<Step>)
    ensures forall step :: step in more ==> !step.Arrive?
    ensures var q, q' := After(steps), After(steps + more);
            q'.accepted == q.accepted && q'.handled == q.accepted && q'.idle == 0 && q'.fifo == EMPTY
    decreases Work(After(steps))
  {
    QueueHistory(steps);
    var q := After(steps);
    if !q.fifo.running {
      more := [];
      assert steps + more == steps;
    } else {
      var step := WorkerStep(q);
      WorkShrinks(q);
      assert (steps + [step])[..|steps|] == steps;
      var rest := WorkerCatchesUp(steps + [step]);
      more := [step] + rest;
      assert steps + more == steps + [step] + rest;
    }
  }

  /** The packets that arrived in a run, accepted or not. */
  function Arrivals(steps: seq<Step>): seq<Packet> {
    if steps == [] then []
    else
      var last := steps[|steps| - 1];
      Arrivals(steps[..|steps| - 1]) + if last.Arrive? then [last.p] else []
  }

  /** True when some push of the run was refused. */
  predicate Overflowed(steps: seq<Step>) {
    steps != [] &&
    var last := steps[|steps| - 1];
    Overflowed(steps[..|steps| - 1])
    || (last.Arrive? && Overflows(After(steps[..|steps| - 1]).fifo, last.p))
  }

  /** The packets accepted are exactly the arrivals if and only if nothing
      overflowed; after an overflow they are strictly fewer. */
  lemma {:induction false} AcceptedAreArrivals(steps: seq<Step>)
    ensures |After(steps).accepted| <= |Arrivals(steps)|
    ensures !Overflowed(steps) ==> After(steps).accepted == Arrivals(steps)
    ensures Overflowed(steps) ==> |After(steps).accepted| < |Arrivals(steps)|
  {
    if steps != [] {
      AcceptedAreArrivals(steps[..|steps| - 1]);
    }
  }

  /** A refused packet does not fail the queue: once the worker has made room a
      later packet is accepted, so acceptance is not a prefix of the arrivals. */
  lemma AcceptsAfterOverflow(big: Packet, small: Packet)
    requires |big.payload| == MAX_QUEUED_BYTES
    requires |small.payload| == 1
    ensures var q := After([Arrive(big), Arrive(small), Fetch, Arrive(small)]);
            q.accepted == [big, small] && Overflowed([Arrive(big), Arrive(small), Fetch, Arrive(small)])
  {
    var s1, s2, s3, s4 := [Arrive(big)], [Arrive(big), Arrive(small)],
      [Arrive(big), Arrive(small), Fetch], [Arrive(big), Arrive(small), Fetch, Arrive(small)];
    assert s1[..0] == [] && s2[..1] == s1 && s3[..2] == s2 && s4[..3] == s3;
    assert After(s1).fifo == Fifo([big], MAX_QUEUED_BYTES, true);
    assert After(s2) == After(s1) && Overflowed(s2);
    assert After(s3).fifo == Fifo([], 0, true);
  }

  function ArriveAll(q: Queue, ps: seq<Packet>): Queue {
    if ps == [] then q else Apply(ArriveAll(q, ps[..|ps| - 1]), Arrive(ps[|ps| - 1]))
  }

  // ---- the object -----------------------------------------------------------

  class PacketQueue {
    var packets: seq<Packet>
    var queuedBytes: int
    var running: bool
    ghost var log: Queue

    /** The log is an orderly queue, and it is what the fields hold. */
    ghost predicate Valid()
      reads this
    {
      Orderly(log) && log.fifo == Fifo(packets, queuedBytes, running)
    }

    constructor ()
      ensures Valid() && log == START
    {
      packets, queuedBytes, running, log := [], 0, false, START;
    }

    ghost method Record(step: Step)
      requires Orderly(log)
      modifies `log
      ensures log == Apply(old(log), step) && Orderly(log)
    {
      OrderlyStep(log, step);
      log := Apply(log, step);
    }

    /** A caller told to start a worker has just taken the only worker slot. */
    method Push(p: Packet) returns (startWorker: bool, overflow: bool)
      requires Valid()
      modifies this
      ensures Valid() && log == Apply(old(log), Arrive(p))
      ensures overflow <==> log.accepted == old(log.accepted)
      ensures overflow <==> |old(packets)| >= 4096 || TotalBytes(old(packets)) + |p.payload| > 64 * 1024 * 1024
      ensures startWorker <==> !overflow && old(log.idle + |log.busy|) == 0
      ensures startWorker ==> log.idle == 1
    {
      Record(Arrive(p));
      if |packets| >= MAX_QUEUED_PACKETS || queuedBytes + |p.payload| > MAX_QUEUED_BYTES {
        return false, true;
      }
      assert |log.accepted| == |old(log.accepted)| + 1;
      packets := packets + [p];
      queuedBytes := queuedBytes + |p.payload|;
      if running {
        return false, false;
      }
      running := true;
      return true, false;
    }

    /** One locked section of `drain`; `None` when the worker leaves. */
    method Take() returns (p: Option<Packet>)
      requires Valid() && log.idle == 1
      modifies this
      ensures Valid() && log == Apply(old(log), Fetch)
      ensures p == if old(packets) == [] then None else Some(old(packets)[0])
    {
      Record(Fetch);
      if |packets| == 0 {
        running := false;
        return None;
      }
      p := Some(packets[0]);
      queuedBytes := queuedBytes - |packets[0].payload|;
      packets := packets[1..];
    }

    /** The worker loop. `during[i]` is what the recv loop pushes while the
        `i`-th packet of this worker is being handled. The worker leaves only
        when everything accepted has been handled, and leaves the queue idle. */
    method Drain(during: seq<seq<Packet>>) returns (seen: seq<Packet>)
      requires Valid() && log.idle == 1
      modifies this
      ensures Valid()
      ensures log.fifo == EMPTY && log.idle == 0 && log.busy == []
      ensures old(log.accepted) <= log.accepted && log.handled == log.accepted
      ensures log.accepted == old(log.handled) + seen
    {
      seen := [];
      var rest := during;
      while true
        invariant Valid() && log.idle == 1
        invariant old(log.accepted) <= log.accepted
        invariant log.handled == old(log.handled) + seen
        decreases |rest|, |packets|
      {
        var p := Take();
        if p.None? {
          return;
        }
        if rest != [] {
          PushAll(rest[0]);
          rest := rest[1..];
        }
        HandlerReturns();
        seen := seen + [p.value];
      }
    }

    ghost method HandlerReturns()
      requires Valid() && |log.busy| == 1
      modifies `log
      ensures Valid() && log == Apply(old(log), Finish(0))
      ensures log.idle == 1 && log.accepted == old(log.accepted) && log.handled == old(log.handled + log.busy)
    {
      Record(Finish(0));
    }

    method PushAll(ps: seq<Packet>)
      requires Valid() && running
      modifies this
      ensures log == ArriveAll(old(log), ps)
      ensures Valid() && running && log.idle == old(log.idle) && log.busy == old(log.busy)
      ensures old(log.accepted) <= log.accepted && log.handled == old(log.handled)
    {
      for i := 0 to |ps|
        invariant Valid() && running && log.idle == old(log.idle) && log.busy == old(log.busy)
        invariant old(log.accepted) <= log.accepted && log.handled == old(log.handled)
        invariant log == ArriveAll(old(log), ps[..i])
      {
        var start, overflow := Push(ps[i]);
        assert ps[..i + 1][..i] == ps[..i];
      }
      assert ps[..|ps|] == ps;
    }
  }
}
