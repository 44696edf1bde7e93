# Hawk anticheat: packet routing, inertia check and aim-convergence check

This project models three parts of the Hawk anticheat for Minecraft servers
and proves properties of the model in Dafny.

- **The packet listener** (`PacketListening`, `packet_listener.dfy`). Every inbound and
  outbound packet is either dropped (listener not running), queued for the
  asynchronous worker, or dispatched at once. A dispatch runs the registered
  adapters in list order and then the packet core. It is fail-open: an `Exception`
  thrown anywhere ends that dispatch, and an inbound packet is then accepted. The
  worker's loop takes a snapshot of the whole queue as a batch and dispatches
  it in order. It then removes exactly the snapshot's length from the head of
  the queue, so entries appended meanwhile survive. It loops again without
  waiting exactly when the queue is still non-empty. The listener is a class
  whose `queue`, adapter lists and `running` flag the methods update in place.
  A ghost history (`enqueued`, `processed`) and a log of collaborator calls
  (`calls`) make "no loss, no duplication, FIFO" and "dispatched in queue
  order" statable.
- **The inertia check** (`InertiaCheck`, `inertia.dfy`). While a player is airborne,
  horizontal motion must keep its direction and may lose speed only along the
  drag curve. The per-player record of the last on-ground tick is a map field
  updated in place. The gate, the threshold and the verdict are functions.
- **The aim-convergence check** (`AimbotConvergenceCheck`, `aimbot_convergence.dfy`).
  The look rays before and after a move nearly meet at a convergence point.
  When that point repeats within a squared distance of 1e-8, the player is
  punished. Otherwise the player is rewarded. The last point per player is a
  map field. A NaN point or distance is `None` and gets no verdict.

Shared modules: `Optional` (`Option`) and `Verdicts` (`Verdict = NoVerdict |
Reward | Punish(rubberband)`). Inertia punishes with `rubberband = true`, which
models `punishAndTryRubberband`. Aim convergence punishes with `rubberband =
false`, which models a plain `punish(pp, false, e)`. The boolean argument of
`punish` belongs to the base check class and is not interpreted.

Doubles are modelled as exact reals. Square roots, arc-cosines, look
directions, block queries and the closest points of two lines come from
library or world code. They are inputs: fields of the sample, or a function
parameter for the closest points. `WellFormed` ties each given length to its
squared length (`len >= 0` and `len * len == lenSq`), and makes the angle NaN
(`None`) when either vector has length zero, as `Vector.angle` divides by the
product of the lengths.

Three details follow the code where a reader might expect otherwise:
- The eye position "after the move" is computed from the move's origin
  (`getFrom()`), exactly like the position before it
  (`AimbotConvergence.java:50-51`).
- The inertia gate also exempts a sample that is on ground *now*, not just one
  that was on ground before (`Inertia.java:57`).
- The inertia check does not override `removeData`, unlike the aim-convergence
  check (`AimbotConvergence.java:77-80`). A player's ground-tick record stays
  in `lastTickOnGround` after the player leaves, so `InertiaCheck.Inertia` has
  no `RemoveData`.

## Model

| member | source | states |
|---|---|---|
| PacketListening.PacketListener.constructor | src/me/islandscout/hawk/listener/PacketListener.java:41-49 | A new listener is not running, keeps its sync/async mode, and has no adapters, an empty queue and no history. |
| PacketListening.PacketListener.Enable | src/me/islandscout/hawk/listener/PacketListener.java:51-56 | Sets `running` and changes nothing else. |
| PacketListening.PacketListener.Disable | src/me/islandscout/hawk/listener/PacketListener.java:58-66 | Clears `running` and changes nothing else. Queued entries stay queued, and `WorkerStep` then exits without dispatching them. |
| PacketListening.PacketListener.ProcessIn | src/me/islandscout/hawk/listener/PacketListener.java:77-85 | Not running: returns true and changes nothing. Async: appends exactly `Entry(packet, player, true)` at the tail, returns true and dispatches nothing. Sync: leaves the queue alone, logs the dispatch's calls, and returns false iff no adapter threw and the core returned false. Keeps `processed + queue == enqueued`. |
| PacketListening.PacketListener.ProcessOut | src/me/islandscout/hawk/listener/PacketListener.java:87-95 | Not running: a no-op. Async: appends exactly one outbound entry at the tail. Sync: logs the outbound dispatch's calls. Keeps the queue invariant. |
| PacketListening.PacketListener.AddToAsyncQueue | src/me/islandscout/hawk/listener/PacketListener.java:97-104 | Appends one entry at the tail of the queue and of the enqueued history, keeping `processed + queue == enqueued`. |
| PacketListening.PacketListener.DispatchInbound | src/me/islandscout/hawk/listener/PacketListener.java:106-118 | Calls the inbound adapters in list order up to and including the first that throws, and the core only when none threw. The result is false exactly when every adapter completed and the core returned false. A throw never propagates: it yields true (fail-open). |
| PacketListening.PacketListener.DispatchOutbound | src/me/islandscout/hawk/listener/PacketListener.java:120-130 | Calls the outbound adapters in list order up to the first throw, and the core only when none threw. A throw is swallowed. |
| PacketListening.PacketListener.DispatchBatch | src/me/islandscout/hawk/listener/PacketListener.java:138-153 | Dispatches the batch entries in queue order, each routed to the inbound or outbound dispatcher by its direction flag. A throw in one entry does not stop the later entries. |
| PacketListening.PacketListener.WorkerStep | src/me/islandscout/hawk/listener/PacketListener.java:135-162 | Not running: exits and changes nothing. Running: the whole queue is the batch and is dispatched in order. Afterwards `queue == old(queue)[|batch|..] + appendedDuringDrain`, the batch is appended to `processed`, and the step loops again without waiting iff the queue is non-empty. Keeps `processed + queue == enqueued`. |
| PacketListening.PacketListener.AddAdapterInbound | src/me/islandscout/hawk/listener/PacketListener.java:175-177 | Appends the adapter to the inbound list. |
| PacketListening.PacketListener.RemoveAdapterInbound | src/me/islandscout/hawk/listener/PacketListener.java:179-181 | Removes only the first equal inbound adapter, or nothing if there is none. |
| PacketListening.PacketListener.AddAdapterOutbound | src/me/islandscout/hawk/listener/PacketListener.java:183-185 | Appends the adapter to the outbound list. |
| PacketListening.PacketListener.RemoveAdapterOutbound | src/me/islandscout/hawk/listener/PacketListener.java:187-189 | Removes only the first equal outbound adapter. |
| PacketListening.FirstThrow | src/me/islandscout/hawk/listener/PacketListener.java:107-111 | The position where the adapter loop stops: every earlier adapter completed, and the adapter at that position threw (or the end of the list was reached). |
| PacketListening.BatchTraceAppend | src/me/islandscout/hawk/listener/PacketListener.java:138-159 | Dispatching `a` and then `b` makes the same calls in the same order as dispatching `a + b`, so where the worker cuts its batches does not change what is dispatched. |
| PacketListening.OfPlayerAppend | src/me/islandscout/hawk/listener/PacketListener.java:100 | Taking one player's entries distributes over concatenation of queues. |
| PacketListening.ProcessedInArrivalOrder | src/me/islandscout/hawk/listener/PacketListener.java:100-159 | With `processed + queue == enqueued`, each player's processed entries are a prefix of that player's enqueued entries. Per-player order is arrival order, and nothing is skipped. |
| PacketListening.IndexOf | src/me/islandscout/hawk/listener/PacketListener.java:180 | The first position of an element: it is there and does not occur earlier. |
| PacketListening.RemoveFirst | src/me/islandscout/hawk/listener/PacketListener.java:179-189 | `List.remove(Object)`: an absent element leaves the list unchanged. Otherwise exactly the element at its first position is cut out. |
| PacketListening.AddThenRemove | src/me/islandscout/hawk/listener/PacketListener.java:175-181 | Adding an unregistered adapter and then removing it restores the list. |
| PacketListening.RemoveKeepsLaterCopy | src/me/islandscout/hawk/listener/PacketListener.java:175-181 | With an adapter registered twice, a removal drops the earlier registration and keeps the later one. |
| InertiaCheck.Inertia.constructor | src/me/islandscout/hawk/check/movement/Inertia.java:38-41 | Starts with no ground-tick records. |
| InertiaCheck.Inertia.Check | src/me/islandscout/hawk/check/movement/Inertia.java:44-84 | Stamps `lastTickOnGround[uuid] := currentTick` for an on-ground sample before, and independently of, the gate. It then returns the verdict for the ticks since ground counted against the updated record. |
| InertiaCheck.RecordGround | src/me/islandscout/hawk/check/movement/Inertia.java:53-54 | An on-ground sample adds or overwrites the player's entry with the current tick. Other players' entries and off-ground samples leave the map as it was. |
| InertiaCheck.TicksSinceGroundAdvances | src/me/islandscout/hawk/check/movement/Inertia.java:55 | For a fixed record, counting from `d` ticks later gives a count `d` larger. |
| InertiaCheck.TwoTickThresholdTicks | src/me/islandscout/hawk/check/movement/Inertia.java:55 | The count of ticks since ground is 2 exactly when the last on-ground stamp is two ticks before the current tick. For a player never stamped, the missing record counts as tick -1, so the count is 2 exactly at tick 1. |
| InertiaCheck.AirborneSampleKeepsCount | src/me/islandscout/hawk/check/movement/Inertia.java:53-55 | An off-ground sample changes no player's count. |
| InertiaCheck.AtRestInAirIsRewarded | src/me/islandscout/hawk/check/movement/Inertia.java:50-81 | A judged sample whose previous horizontal velocity is zero is rewarded. The angle to a zero vector is NaN, so the angle test fails, and `prevLenSq = 0 <= 0.01`, so the magnitude test does not apply. |
| InertiaCheck.PrevSpeed | src/me/islandscout/hawk/check/movement/Inertia.java:61 | Without slowdown it is the previous horizontal length. A slowdown strictly lowers a positive speed. It is never negative and never above the previous length. |
| InertiaCheck.MagnitudeThreshold | src/me/islandscout/hawk/check/movement/Inertia.java:62-69 | Near liquid the threshold is 0. For a non-negative previous speed it is at most that speed, and strictly below it away from liquid: keeping speed never fails. |
| InertiaCheck.VerdictCases | src/me/islandscout/hawk/check/movement/Inertia.java:57-82 | A sample gets no verdict iff a gate condition holds. Otherwise it gets exactly one of punish-with-rubber-band or reward. It is punished iff `horizSpeedSq > 0.05 && angle > 0.2`, or `prevLenSq > 0.01 && moveLen < threshold`. |
| InertiaCheck.WasOnGroundIsNeverJudged | src/me/islandscout/hawk/check/movement/Inertia.java:57 | A sample that was on ground gets no verdict. |
| InertiaCheck.LiquidOnlyAngleTestPunishes | src/me/islandscout/hawk/check/movement/Inertia.java:62-76 | Next to liquid the magnitude test cannot fail, because `moveLen >= 0 = threshold`. Punishment then comes from the angle test alone. |
| InertiaCheck.KeepingSpeedIsRewarded | src/me/islandscout/hawk/check/movement/Inertia.java:61-82 | A judged sample that keeps its direction and at least its slowdown-adjusted previous speed is rewarded. |
| InertiaCheck.ThresholdOrdering | src/me/islandscout/hawk/check/movement/Inertia.java:61-69 | For any non-negative previous speed, near liquid or not: the threshold two ticks after ground is never above the threshold at any other count, and a slowdown never raises the threshold at any count. |
| InertiaCheck.WorkedInstance | src/me/islandscout/hawk/check/movement/Inertia.java:61-81 | Previous speed 2.0, two ticks after ground, gives threshold 1.065999. A straight move of length 1.0 is punished and one of 1.2 is rewarded. |
| InertiaCheck.GroundStampStartsCount | src/me/islandscout/hawk/check/movement/Inertia.java:53-55 | After an on-ground sample at tick t, the count is 0 at t and exactly 2 at t + 2, the tick that gets the two-tick threshold. |
| AimbotConvergenceCheck.AimbotConvergence.constructor | src/me/islandscout/hawk/check/interaction/AimbotConvergence.java:37-40 | Starts with no stored convergence points. |
| AimbotConvergenceCheck.AimbotConvergence.Check | src/me/islandscout/hawk/check/interaction/AimbotConvergence.java:43-75 | No positional delta, or a teleport: no verdict and the map is unchanged. Otherwise it judges the new convergence point against the stored one, then stores the new point (NaN or not) for this player. Every other player's entry is unchanged. |
| AimbotConvergenceCheck.AimbotConvergence.RemoveData | src/me/islandscout/hawk/check/interaction/AimbotConvergence.java:77-80 | Deletes exactly this player's entry. |
| AimbotConvergenceCheck.EyeDisplacementIsVelocity | src/me/islandscout/hawk/check/interaction/AimbotConvergence.java:50-51 | The eye position after the move minus the one before it is exactly the velocity. |
| AimbotConvergenceCheck.Midpoint | src/me/islandscout/hawk/check/interaction/AimbotConvergence.java:57 | The convergence point is NaN iff the closest points are. Otherwise it lies halfway between them: `m - a == b - m`. |
| AimbotConvergenceCheck.MidpointEquidistant | src/me/islandscout/hawk/check/interaction/AimbotConvergence.java:57 | The convergence point is equally far from both closest points. |
| AimbotConvergenceCheck.DistanceNonNegative | src/me/islandscout/hawk/check/interaction/AimbotConvergence.java:60 | A squared distance is never negative and is zero from a point to itself. |
| AimbotConvergenceCheck.Distance | src/me/islandscout/hawk/check/interaction/AimbotConvergence.java:60-61 | The distance is NaN iff either point is. Otherwise it is non-negative, and 0 between a point and itself. |
| AimbotConvergenceCheck.LookupAfterStore | src/me/islandscout/hawk/check/interaction/AimbotConvergence.java:56-73 | After `put`, `get` for that player returns the stored point, and every other player's `get` is unchanged. |
| AimbotConvergenceCheck.LookupAfterRemove | src/me/islandscout/hawk/check/interaction/AimbotConvergence.java:56-79 | After `remove`, `get` for that player finds nothing, and every other player's `get` is unchanged. |
| AimbotConvergenceCheck.ConsecutiveMovesCompared | src/me/islandscout/hawk/check/interaction/AimbotConvergence.java:56-73 | A player's next judged move is compared with the convergence point of that player's previous judged move, whatever was stored before it. |
| AimbotConvergenceCheck.JudgeCases | src/me/islandscout/hawk/check/interaction/AimbotConvergence.java:59-71 | A first observation or a NaN distance gets no verdict. Otherwise exactly one of a plain punishment (squared distance < 1e-8) or reward (squared distance >= 1e-8). |
| AimbotConvergenceCheck.RepeatedPointIsPunished | src/me/islandscout/hawk/check/interaction/AimbotConvergence.java:59-66 | The same convergence point twice in a row is punished at once. |
| AimbotConvergenceCheck.DistinctPointsNotPunishedWhenFar | src/me/islandscout/hawk/check/interaction/AimbotConvergence.java:65-68 | Points at squared distance at least 1e-8 are rewarded, never punished. |
| AimbotConvergenceCheck.ParallelRaysInconclusive | src/me/islandscout/hawk/check/interaction/AimbotConvergence.java:54-61 | When the closest points are NaN (parallel rays) there is no verdict, whatever was stored. |
| AimbotConvergenceCheck.RemovedPlayerStartsOver | src/me/islandscout/hawk/check/interaction/AimbotConvergence.java:78-80 | After `removeData`, the player's next move is a first observation: no verdict. |

## Left out

- Threads and signalling: starting the worker thread, `synchronized`, `wait`/`notify`, the synchronized list wrapper and `InterruptedException`. The worker's loop is modelled one iteration at a time (`WorkerStep`). The entries producers append during the dispatch of a batch are a parameter of that step.
- The window in the worker between the emptiness test and `wait()`: a wake-up sent in that window reaches no waiting thread. This is about thread timing, which the model does not represent.
- Visibility of `running` across threads (the field is not `volatile`). This is not modelled, for the same reason.
- Logging: `printStackTrace` on a caught exception.
- Errors: the dispatchers catch only `Exception` (`PacketListener.java:114`, `127`). An `Error` thrown by an adapter or the core would escape `processIn`/`processOut` in sync mode and end the worker thread in async mode, after which the queue is never drained. `Threw` and `Raised` stand for exceptions only, and a thrown `Error` is not modelled.
- PacketListening.PacketListener.Enable: does not model that a second `enable()` of an async listener, after a `disable()`, calls `Thread.start()` on a thread that was already started. Java throws `IllegalThreadStateException` there, after `running` is set, so no worker drains the queue from then on. The model's `Enable` is followed by `WorkerStep` as if a worker were running.
- `PacketCore`, the `PacketAdapter` bodies and the abstract `add`/`removeAll` player hooks (with `addListener`): their code is not part of this model. Adapters and the core are deterministic functions from their arguments to an outcome (completed or threw; returned a verdict or threw).
- PacketListening.PacketListener.Disable: does not model the `removeAll()` call, because that hook's body is not part of this model.
- Purging the inertia check's per-player state: `Inertia.java` has no `removeData`, so a player's `lastTickOnGround` entry outlives a disconnect. The model keeps the entry too, as the code does, and has no removal operation for it.
- `isAsync`/`isRunning` getters: they only read a field.
- `reward`, `punish`, `punishAndTryRubberband` and the violation-level engine in the base check classes: not part of this model. A check returns a `Verdict` instead. Decay, thresholds, caps, messages and the meaning of the base constructors' arguments are not modelled.
- Floating point: doubles are exact reals. Rounding, infinities, the `float` cast in `Vector.angle`, and NaN in a single coordinate (the whole point is `None` instead) are not modelled. `Vector.angle`, `length`, `Math.pow`, `Location.getDirection` and `Ray.closestPointsBetweenLines` are inputs.
- World and server queries (`AdjacentBlocks`, `isFlying`, `isInsideVehicle`, `getLocation`, the event's flags) are boolean inputs of the sample. The rubber-band target location is not modelled.
- The tick counter is an unbounded integer. The overflow of Java's 64-bit `long` is not modelled.
- Player identity: players, packets and adapters are natural-number handles, and adapter equality is handle equality.
