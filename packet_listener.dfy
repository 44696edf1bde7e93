/** The packet listener: it routes every inbound and outbound packet either
    straight to the adapters and the packet core (synchronous mode) or onto a
    queue that a worker drains in batches (asynchronous mode).

    The worker thread, its wait/notify signalling and the locks are not
    modelled; one iteration of the worker's loop is a method that is told
    which entries producers appended while the batch was being dispatched. */
module PacketListening {

  /** Packets, players and adapters are opaque handles: only identity matters. */
  type Packet = nat
  type Player = nat
  type Adapter = nat

  /** One queued element: the packet, its player and its direction. */
  datatype Entry = Entry(packet: Packet, player: Player, inbound: bool)

  /** What an adapter's run, or the core's outbound handler, does: return, or
      throw an `Exception`, which the dispatch catches. A thrown `Error` is not
      modelled. */
  datatype Outcome = Completed | Threw

  /** What the core's inbound handler does: return its verdict, or throw an
      `Exception`. */
  datatype CoreOutcome = Returned(accept: bool) | Raised

  /** The collaborators whose code is not part of this model, as functions of
      the arguments they are called with. */
  datatype Collaborators = Collaborators(
    runAdapter: (Adapter, Packet, Player) -> Outcome,
    coreIn: (Packet, Player) -> CoreOutcome,
    coreOut: (Packet, Player) -> Outcome)

  /** One call into a collaborator. The listener's `calls` log lists them in
      the order they are made. */
  datatype Call =
    | AdapterRun(adapter: Adapter, packet: Packet, player: Player)
    | CoreIn(packet: Packet, player: Player)
    | CoreOut(packet: Packet, player: Player)

  /** How one iteration of the worker's loop ends. */
  datatype WorkerStatus =
    | Exited     // `running` was false at the loop guard: the loop is left
    | Continue   // the queue is still non-empty: loop again without waiting
    | Wait       // the queue is empty: block until notified

  /** The position of the first adapter that throws on this packet, or the
      length of the list when none does. */
  function FirstThrow(adapters: seq<Adapter>, packet: Packet, player: Player, env: Collaborators): (k: nat)
    ensures k <= |adapters|
    ensures forall i :: 0 <= i < k ==> env.runAdapter(adapters[i], packet, player) == Completed
    ensures k < |adapters| ==> env.runAdapter(adapters[k], packet, player) == Threw
  {
    if adapters == [] then 0
    else
      var o: Outcome := env.runAdapter(adapters[0], packet, player);
      assert o == Completed || o == Threw;
      if o == Threw then 0
      else
        var k' := FirstThrow(adapters[1..], packet, player, env);
        assert forall i :: 0 < i <= k' ==> adapters[i] == adapters[1..][i - 1];
        1 + k'
  }

  /** The runs of the given adapters on one packet, in list order. */
  function AdapterRuns(adapters: seq<Adapter>, packet: Packet, player: Player): seq<Call>
  {
    seq(|adapters|, i requires 0 <= i < |adapters| => AdapterRun(adapters[i], packet, player))
  }

  /** The calls one dispatch of `e` makes: the adapters in list order up to and
      including the first that throws; the core only when none threw. */
  function DispatchTrace(adapters: seq<Adapter>, e: Entry, env: Collaborators): seq<Call>
  {
    var k := FirstThrow(adapters, e.packet, e.player, env);
    if k < |adapters| then AdapterRuns(adapters[..k + 1], e.packet, e.player)
    else AdapterRuns(adapters, e.packet, e.player)
         + [if e.inbound then CoreIn(e.packet, e.player) else CoreOut(e.packet, e.player)]
  }

  /** A dispatch drops the packet exactly when every inbound adapter completed
      and the core returned false. */
  predicate Vetoed(adapters: seq<Adapter>, packet: Packet, player: Player, env: Collaborators)
  {
    && (forall i :: 0 <= i < |adapters| ==> env.runAdapter(adapters[i], packet, player) == Completed)
    && env.coreIn(packet, player) == Returned(false)
  }

  /** The calls made by dispatching a queued entry, routed by its direction. */
  function EntryTrace(adaptersIn: seq<Adapter>, adaptersOut: seq<Adapter>, e: Entry, env: Collaborators): seq<Call>
  {
    if e.inbound then DispatchTrace(adaptersIn, e, env) else DispatchTrace(adaptersOut, e, env)
  }

  /** The calls made by dispatching a batch, entry after entry in queue order. */
  function BatchTrace(adaptersIn: seq<Adapter>, adaptersOut: seq<Adapter>, batch: seq<Entry>, env: Collaborators): seq<Call>
  {
    if batch == [] then []
    else BatchTrace(adaptersIn, adaptersOut, batch[..|batch| - 1], env)
         + EntryTrace(adaptersIn, adaptersOut, batch[|batch| - 1], env)
  }

  /** Where a batch ends does not matter: dispatching `a` and then `b` makes
      the same calls, in the same order, as dispatching `a + b` at once. */
  lemma {:induction false} BatchTraceAppend(adaptersIn: seq<Adapter>, adaptersOut: seq<Adapter>,
                                            a: seq<Entry>, b: seq<Entry>, env: Collaborators)
    ensures BatchTrace(adaptersIn, adaptersOut, a + b, env)
         == BatchTrace(adaptersIn, adaptersOut, a, env) + BatchTrace(adaptersIn, adaptersOut, b, env)
    decreases |b|
  {
    if b != [] {
      var b' := b[..|b| - 1];
      assert (a + b)[..|a + b| - 1] == a + b';
      assert (a + b)[|a + b| - 1] == b[|b| - 1];
      BatchTraceAppend(adaptersIn, adaptersOut, a, b', env);
    } else {
      assert a + b == a;
    }
  }

  /** The entries of one player, in their original order. */
  function OfPlayer(s: seq<Entry>, p: Player): seq<Entry>
  {
    if s == [] then []
    else (if s[0].player == p then [s[0]] else []) + OfPlayer(s[1..], p)
  }

  lemma {:induction false} OfPlayerAppend(a: seq<Entry>, b: seq<Entry>, p: Player)
    ensures OfPlayer(a + b, p) == OfPlayer(a, p) + OfPlayer(b, p)
  {
    if a != [] {
      assert (a + b)[1..] == a[1..] + b;
      OfPlayerAppend(a[1..], b, p);
    } else {
      assert a + b == b;
    }
  }

  /** Per-player FIFO: when the processed entries followed by the queue are
      everything enqueued, each player's processed entries are the first of
      that player's enqueued entries, in arrival order. */
  lemma ProcessedInArrivalOrder(processed: seq<Entry>, queue: seq<Entry>, enqueued: seq<Entry>, p: Player)
    requires processed + queue == enqueued
    ensures OfPlayer(processed, p) <= OfPlayer(enqueued, p)
  {
    OfPlayerAppend(processed, queue, p);
  }

  /** The first position of `a` in `s`. */
  function IndexOf(s: seq<Adapter>, a: Adapter): (i: nat)
    requires a in s
    ensures i < |s| && s[i] == a && a !in s[..i]
  {
    if s[0] == a then 0 else 1 + IndexOf(s[1..], a)
  }

  /** `List.remove(Object)`: drop the first element equal to `a`, if any. */
  function RemoveFirst(s: seq<Adapter>, a: Adapter): (r: seq<Adapter>)
    ensures a !in s ==> r == s
    ensures a in s ==> r == s[..IndexOf(s, a)] + s[IndexOf(s, a) + 1..]
  {
    if s == [] then []
    else if s[0] == a then
      assert s[..0] == [];
      s[1..]
    else
      var rest := s[1..];
      assert s == [s[0]] + rest;
      if a in rest then
        var j := IndexOf(rest, a);
        assert IndexOf(s, a) == j + 1;
        assert s[..j + 1] == [s[0]] + rest[..j];
        assert s[j + 2..] == rest[j + 1..];
        [s[0]] + RemoveFirst(rest, a)
      else
        [s[0]] + RemoveFirst(rest, a)
  }

  /** Adding an adapter that was not registered and removing it again
      restores the list. */
  lemma AddThenRemove(s: seq<Adapter>, a: Adapter)
    requires a !in s
    ensures RemoveFirst(s + [a], a) == s
  {
    assert (s + [a])[..|s|] == s;
  }

  /** When an adapter is registered twice, removing it drops the earlier
      registration and keeps the later one. */
  lemma {:induction false} RemoveKeepsLaterCopy(s: seq<Adapter>, a: Adapter)
    requires a in s
    ensures RemoveFirst(s + [a], a) == RemoveFirst(s, a) + [a]
  {
    assert (s + [a])[1..] == s[1..] + [a];
    if s[0] != a {
      RemoveKeepsLaterCopy(s[1..], a);
    }
  }

  class PacketListener {
    var running: bool
    const async: bool
    var adaptersIn: seq<Adapter>
    var adaptersOut: seq<Adapter>
    /** The asynchronous queue; unused in synchronous mode. */
    var queue: seq<Entry>
    /** Every entry ever appended to the queue. */
    ghost var enqueued: seq<Entry>
    /** Every entry the worker has taken off the queue and dispatched. */
    ghost var processed: seq<Entry>
    /** The calls made into adapters and the core, in order. */
    var calls: seq<Call>

    /** No entry is lost or duplicated and the queue is FIFO: what was
        processed, followed by what is queued, is what was enqueued. */
    ghost predicate Valid()
      reads this
    {
      && processed + queue == enqueued
      && (!async ==> enqueued == [])
    }

    constructor (async: bool)
      ensures Valid() && this.async == async && !running
      ensures adaptersIn == [] && adaptersOut == []
      ensures queue == [] && enqueued == [] && processed == [] && calls == []
    {
      this.async := async;
      running := false;
      adaptersIn, adaptersOut := [], [];
      queue, calls := [], [];
      enqueued, processed := [], [];
    }

    method Enable()
      modifies this`running
      ensures running
    {
      running := true;
    }

    /** Stops the listener. Entries still queued stay queued: the worker's
        loop guard sees `running == false` and exits without draining them. */
    method Disable()
      modifies this`running
      ensures !running
    {
      running := false;
    }

    /** Returns false only when the packet is to be dropped, which can only
        happen in synchronous mode. */
    method ProcessIn(packet: Packet, player: Player, env: Collaborators) returns (accept: bool)
      requires Valid()
      modifies this`queue, this`enqueued, this`calls
      ensures Valid()
      ensures !running ==> accept && queue == old(queue) && enqueued == old(enqueued) && calls == old(calls)
      ensures running && async ==>
        && accept
        && queue == old(queue) + [Entry(packet, player, true)]
        && enqueued == old(enqueued) + [Entry(packet, player, true)]
        && calls == old(calls)
      ensures running && !async ==>
        && queue == old(queue) && enqueued == old(enqueued)
        && calls == old(calls) + DispatchTrace(adaptersIn, Entry(packet, player, true), env)
        && (accept <==> !Vetoed(adaptersIn, packet, player, env))
    {
      if !running {
        return true;
      }
      if async {
        AddToAsyncQueue(packet, player, true);
        return true;
      }
      var trace;
      accept, trace := DispatchInbound(packet, player, env);
      calls := calls + trace;
    }

    method ProcessOut(packet: Packet, player: Player, env: Collaborators)
      requires Valid()
      modifies this`queue, this`enqueued, this`calls
      ensures Valid()
      ensures !running ==> queue == old(queue) && enqueued == old(enqueued) && calls == old(calls)
      ensures running && async ==>
        && queue == old(queue) + [Entry(packet, player, false)]
        && enqueued == old(enqueued) + [Entry(packet, player, false)]
        && calls == old(calls)
      ensures running && !async ==>
        && queue == old(queue) && enqueued == old(enqueued)
        && calls == old(calls) + DispatchTrace(adaptersOut, Entry(packet, player, false), env)
    {
      if !running {
        return;
      }
      if async {
        AddToAsyncQueue(packet, player, false);
        return;
      }
      var trace := DispatchOutbound(packet, player, env);
      calls := calls + trace;
    }

    method AddToAsyncQueue(packet: Packet, player: Player, inbound: bool)
      requires Valid() && async
      modifies this`queue, this`enqueued
      ensures Valid()
      ensures queue == old(queue) + [Entry(packet, player, inbound)]
      ensures enqueued == old(enqueued) + [Entry(packet, player, inbound)]
    {
      queue := queue + [Entry(packet, player, inbound)];
      enqueued := enqueued + [Entry(packet, player, inbound)];
    }

    /** Runs the inbound adapters in list order, then the core. Fail-open: an
        exception anywhere stops the dispatch and the packet is accepted. */
    method DispatchInbound(packet: Packet, player: Player, env: Collaborators) returns (accept: bool, trace: seq<Call>)
      ensures trace == DispatchTrace(adaptersIn, Entry(packet, player, true), env)
      ensures !accept <==>
        && (forall i :: 0 <= i < |adaptersIn| ==> env.runAdapter(adaptersIn[i], packet, player) == Completed)
        && env.coreIn(packet, player) == Returned(false)
    {
      trace := [];
      for i := 0 to |adaptersIn|
        invariant trace == AdapterRuns(adaptersIn[..i], packet, player)
        invariant forall j :: 0 <= j < i ==> env.runAdapter(adaptersIn[j], packet, player) == Completed
      {
        trace := trace + [AdapterRun(adaptersIn[i], packet, player)];
        assert trace == AdapterRuns(adaptersIn[..i + 1], packet, player);
        if env.runAdapter(adaptersIn[i], packet, player) == Threw {
          // caught at the dispatch boundary
          assert FirstThrow(adaptersIn, packet, player, env) == i;
          return true, trace;
        }
      }
      assert adaptersIn[..|adaptersIn|] == adaptersIn;
      trace := trace + [CoreIn(packet, player)];
      if env.coreIn(packet, player) == Returned(false) {
        return false, trace;
      }
      accept := true;
    }

    /** Runs the outbound adapters in list order, then the core; a throw
        anywhere stops the dispatch and is swallowed. */
    method DispatchOutbound(packet: Packet, player: Player, env: Collaborators) returns (trace: seq<Call>)
      ensures trace == DispatchTrace(adaptersOut, Entry(packet, player, false), env)
    {
      trace := [];
      for i := 0 to |adaptersOut|
        invariant trace == AdapterRuns(adaptersOut[..i], packet, player)
        invariant forall j :: 0 <= j < i ==> env.runAdapter(adaptersOut[j], packet, player) == Completed
      {
        trace := trace + [AdapterRun(adaptersOut[i], packet, player)];
        assert trace == AdapterRuns(adaptersOut[..i + 1], packet, player);
        if env.runAdapter(adaptersOut[i], packet, player) == Threw {
          assert FirstThrow(adaptersOut, packet, player, env) == i;
          return;
        }
      }
      assert adaptersOut[..|adaptersOut|] == adaptersOut;
      trace := trace + [CoreOut(packet, player)];
    }

    /** Dispatches every entry of a batch in order, each to the inbound or the
        outbound dispatcher according to its direction; the inbound verdicts
        are discarded. */
    method DispatchBatch(batch: seq<Entry>, env: Collaborators) returns (trace: seq<Call>)
      ensures trace == BatchTrace(adaptersIn, adaptersOut, batch, env)
    {
      trace := [];
      for i := 0 to |batch|
        invariant trace == BatchTrace(adaptersIn, adaptersOut, batch[..i], env)
      {
        var e := batch[i];
        var entryCalls;
        if e.inbound {
          var ignored;
          ignored, entryCalls := DispatchInbound(e.packet, e.player, env);
        } else {
          entryCalls := DispatchOutbound(e.packet, e.player, env);
        }
        assert batch[..i + 1][..i] == batch[..i];
        trace := trace + entryCalls;
      }
      assert batch[..|batch|] == batch;
    }

    /** One iteration of the worker's loop. `appended` are the entries
        producers added to the queue while the batch was being dispatched. */
    method WorkerStep(appended: seq<Entry>, env: Collaborators) returns (status: WorkerStatus)
      requires Valid() && async
      modifies this`queue, this`enqueued, this`processed, this`calls
      ensures Valid()
      ensures !running ==>
        && status == Exited
        && queue == old(queue) && enqueued == old(enqueued)
        && processed == old(processed) && calls == old(calls)
      ensures running ==>
        && processed == old(processed) + old(queue)
        && calls == old(calls) + BatchTrace(adaptersIn, adaptersOut, old(queue), env)
        && enqueued == old(enqueued) + appended
        && queue == old(queue)[|old(queue)|..] + appended
        && (status == Continue <==> queue != [])
        && (status == Wait <==> queue == [])
    {
      if !running {
        return Exited;
      }
      var batch := queue;
      var trace := DispatchBatch(batch, env);
      calls, processed := calls + trace, processed + batch;
      queue := queue + appended;
      enqueued := enqueued + appended;
      // remove exactly the entries that were copied into the batch
      queue := queue[|batch|..];
      status := if queue != [] then Continue else Wait;
    }

    method AddAdapterInbound(a: Adapter)
      modifies this`adaptersIn
      ensures adaptersIn == old(adaptersIn) + [a]
    {
      adaptersIn := adaptersIn + [a];
    }

    method RemoveAdapterInbound(a: Adapter)
      modifies this`adaptersIn
      ensures adaptersIn == RemoveFirst(old(adaptersIn), a)
    {
      adaptersIn := RemoveFirst(adaptersIn, a);
    }

    method AddAdapterOutbound(a: Adapter)
      modifies this`adaptersOut
      ensures adaptersOut == old(adaptersOut) + [a]
    {
      adaptersOut := adaptersOut + [a];
    }

    method RemoveAdapterOutbound(a: Adapter)
      modifies this`adaptersOut
      ensures adaptersOut == RemoveFirst(old(adaptersOut), a)
    {
      adaptersOut := RemoveFirst(adaptersOut, a);
    }
  }
}
