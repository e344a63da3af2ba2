# A Dafny model of glbd, the TCP connection balancer

glbd accepts client connections, chooses a server for each, and relays bytes both
ways. This project models its four engines and proves what they promise.

| module | file | what it models |
|---|---|---|
| `RouterState` | RouterState.dfy | the router's state as a value; every critical section of `src/glb_router.c` as a pure step |
| `RouterObject` | Router.dfy | the router object: the loops that take those steps in place |
| `RouterInvariant` | RouterInvariant.dfy | the destination table refines a finite map; whole runs of the router |
| `Frames` | Frames.dfy | what each router operation leaves alone, address by address and field by field |
| `LeastConnected`, `RoundRobin`, `WeightMap`, `TopChoice` | same names | what each balancing policy guarantees |
| `FreshMap` | FreshMap.dfy | the two map policies over time: an old map still leads to usable destinations |
| `Recovery` | Recovery.dfy | destinations that come back after the map and the top have been looked at again |
| `Scenarios` | Scenarios.dfy | runs from the empty table that show what happens when a hypothesis is not met |
| `Probing` | Probing.dfy | extra probing on connection attempts, and how long its answers last |
| `Failover` | Failover.dfy | the synchronous connect loop with other threads interfering |
| `Interference` | Interference.dfy | the wait protocol leaves other threads exactly what the connect loop assumes of them |
| `Concurrency` | Concurrency.dfy | busy/wait protocol, held table pointers, connection accounting, admission limit |
| `LifeCycle` | LifeCycle.dfy | the same system from outside: one connection's life, when a change takes effect, what is lost |
| `PoolTable`, `PoolObject` | PoolTable.dfy, Pool.dfy | the pool's poll array, route map and slot indices; sweeps |
| `Relay`, `ConnectionObject` | Relay.dfy, Connection.dfy | byte relay, flow control, asynchronous completion and failover of one connection |
| `ControlPipe` | ControlPipe.dfy | the command pipe with condition-variable confirmation |
| `ProbeContexts` | ProbeContexts.dfy | the probe contexts that rows share with watched entries |
| `Watchdog` | Watchdog.dfy | latency smoothing, weights, the collection pass |
| `Verdicts` | Verdicts.dfy | what the backends' reports come to in the router's table, and whose settings last |
| `Tokens` | Tokens.dfy | the in-place token splitter |

`dafny verify dfyconfig.toml` checks the whole project.

## How the model is built

- **Steps and objects.** Code that updates state in loops is a class whose methods
  carry those loops. Each method is proved to take a step that is defined on values,
  or to satisfy a relation between the old and the new value. The properties are
  lemmas about the values, so they hold for every run of the object.
- **Inputs.** Clock readings, `connect`, `send`, `recv`, `getsockopt` and probe
  outcomes, thread starts and random numbers are parameters and may take any value.
- **Numbers.** `double` is `real`. Connection counts are natural numbers: the source
  asserts that they never go below zero. `Concurrency.SoundRuns` says exactly when those
  assertions hold, and the theorems about runs speak of the part of a run in which they
  have held.
- **Concurrency.** A critical section is one atomic step. `Concurrency.Guard` says when
  the environment may take a step; `Concurrency.Sound` is what the code asserts. A held
  pointer is a row together with the number of the table it points into; every add and
  every removal reallocates the table.
- **Ghost histories.** `received` and `delivered` in the relay exist only to state
  what the relay promises.

Hypotheses that appear in the theorems, because the code needs them:

- one thread at a time changes the table (`SecondChangerDuplicates` shows what a second
  would do);
- during one synchronous connect loop the clock advances by at most the retry interval;
  under a map policy it also does not go back, points are not negative, and there is
  neither top-weighting nor probing (`TopRepeats`, `ProbedRepeats` and
  `WeightMap.NegativePoint` show what happens otherwise, `FailureClearsPart` when);
- `send` on a socket that is still connecting does not succeed;
- descriptors are below 65536, the size of the route map, which the pool indexes without
  a check;
- where the latency factor is positive, a backend that reports READY has measured a
  positive latency.

Where code and documentation differ the model follows the code:

- the map lookup subtracts 1e-9 from the point, so the first five hints fall below zero
  and always get row 0, even when it is not eligible (`WeightMap.HintPromise` gives the
  exact condition);
- under a map policy a destination that fails keeps its part of the map if and only if it
  was not eligible when it failed (`FreshMap.FailureClearsPart`); with `--top` and with
  probing the next choice for the same hint can then return it at once
  (`Scenarios.TopRepeats`, `Scenarios.ProbedRepeats`);
- a destination that fails again while it is out is never looked at again if the map is
  redone before it is back: it stays without a part, even as the only destination
  (`Recovery.StrandedRuns` is exact, `Scenarios.StrandedForever` a run); the same holds
  of the top (`Recovery.OverlookedRuns`, `Scenarios.OverlookedForever`);
- the single policy can find nothing although a destination is usable, when its top is
  out and no look at the top is due (`Recovery.SingleFinds`, `Scenarios.SingleMisses`);
- reaping a watchdog entry frees the probe context that its row in the router still
  points to (`ProbeContexts.BackedRuns` is exact, `ProbeContexts.ContextFreed` a run);
- an address that is removed and added again while connections to it are open does not
  count them, and when they close the assertion of `router_disconnect` can fail
  (`Concurrency.SoundCondition` and `Concurrency.ExactRuns` are exact,
  `Concurrency.CloseAfterReAdd` is a run);
- with a watchdog, removing a destination through the control socket drops its
  connections while the router still lists it, so its count keeps them
  (`Concurrency.DropCondition` and `Concurrency.ExactRuns` are exact);
- both assertions of `glb_router_choose_dst_again` fail in reachable states
  (`Concurrency.RedirectAssertions` gives the exact conditions,
  `FirstAssertionFails` and `SecondAssertionFails` the runs);
- reaping a watchdog entry leaves the router's row in place, so a destination added
  again afterwards is recorded as not listed although it is
  (`Watchdog.AgreementRuns` gives the exact condition, `Watchdog.ReapedThenAdded` the
  run), and stays so until its backend reports READY or AVOID
  (`Watchdog.RepairCondition`);
- a sweep that meets the server end of an incomplete connection first leaves the
  connection allocated and the client socket open (`PoolObject.Leaks` is the exact
  condition, `PoolObject.LeakedClient` an instance);
- an unhandled send error leaves bytes waiting without WRITE interest in exactly two
  cases: after a read, when the end was not armed before, and after a connect has
  completed with bytes held back (`Relay.UnhandledCondition`);
- a connect that is retried with a full buffer arms the client for reading although
  there is no room, and each read event then changes nothing (`Relay.ReadsIntoSpace`);
- with two senders at once, a sender may be released by the confirmation of the other's
  command (`ControlPipe.WakeCondition` and `ControlPipe.OwnCommandRuns` are exact,
  `ControlPipe.TwoSendersCanCross` is a run).

## Model

| member | source | states |
|---|---|---|
| `RouterInvariant.ChangeDstRefines` | src/glb_router.c:234-352 | adding, re-weighting and removing with swap-with-last is the corresponding operation on a duplicate-free map from address to weight and count, keeps the router invariant, and fails exactly when an unknown address is to be removed |
| `RouterInvariant.RemovedRefines` | src/glb_router.c:300-331 | copying the last row over the removed one loses no other row, keeps the total equal to the sum of counts and the cursor in range |
| `Frames.ChangeKeepsOthers` | src/glb_router.c:310-313 | adding, re-weighting or removing one address leaves the row listed under every other address as it was in every field (failure time, last check, probe, weight, usage, connections) but its part of the map, although a removal moves the last row |
| `Frames.ChangeOfNamed` | src/glb_router.c:276-338 | the address named is listed afterwards if and only if the weight is not negative; re-weighted, only weight, usage and part of the map change; added, it has no connections and no failure and was checked just now |
| `Frames.ChangeResult` | src/glb_router.c:234-352 | the result is the row of the address or -ENONET with nothing changed; the round-robin cursor moves, to row 0, only if its row is no more |
| `Frames.TopIsForgotten` | src/glb_router.c:286-305 | adding or removing forgets the top: the outcome does not depend on what it was |
| `RouterInvariant.AddedIsUsable` | src/glb_router.c:276-299 | a new destination takes the last row with no connections, counts as never failed and just checked, and is usable at once |
| `RouterInvariant.ChooseRefines` | src/glb_router.c:556-590 | a choice adds one connection to one listed destination and to the total, or changes no row; the invariant is kept under all five policies, with probing |
| `RouterInvariant.DisconnectRefines` | src/glb_router.c:778-797 | disconnecting lowers the count of the named destination and the total by one if it is listed and changes nothing otherwise |
| `Frames.DisconnectKeepsOthers` | src/glb_router.c:778-797 | disconnecting changes count, usage and, after a failure, the failure time of the one row that holds the address, and no other field of that or any other row but parts of the map |
| `Frames.DstFailedKeepsOthers` | src/glb_router.c:626-655 | marking a destination failed stamps its row and no other |
| `RouterInvariant.ChooseAgainRefines` | src/glb_router.c:817-848 | failing over releases the old destination, if it is listed, and acquires a new one, if there is one; the total moves accordingly in all four cases |
| `RouterInvariant.RunRefines` | src/glb_router.c:234-848 | in every run from the empty router all states satisfy the invariant (no duplicates, total = sum, usage = weight/(conns+1), cursor and top inside the table) and every step is the abstract map step |
| `RouterObject.Router.RedoTopInPlace` | src/glb_router.c:163-188 | the scan in place takes the step `RedoTop` |
| `RouterObject.Router.RedoMapInPlace` | src/glb_router.c:190-224 | the two passes in place produce the closed-form cumulative map `RedoMap` |
| `RouterObject.Router.ApplyChange` | src/glb_router.c:234-352 | the table update in place takes the step `ChangeDst` and returns its row or error code |
| `RouterObject.Router.PickLeast` | src/glb_router.c:439-464 | the scan in place takes the step `ChooseLeast` |
| `RouterObject.Router.PickRound` | src/glb_router.c:467-486 | the circular scan in place takes the step `ChooseRound` |
| `RouterObject.Router.PickByHint` | src/glb_router.c:494-545 | the lookup in place takes the step `ChooseHint` |
| `RouterObject.Router.ChooseDst` | src/glb_router.c:556-590 | context refresh, top refresh, policy and counting together take the step `Choose` |
| `RouterObject.Router.MarkFailed` | src/glb_router.c:626-655 | marking a destination failed, with top and map redone only if it was in use, takes the step `DstFailed` |
| `RouterObject.Router.DisconnectDst` | src/glb_router.c:778-797 | takes the step `Disconnect` |
| `RouterObject.Router.ChooseDstAgain` | src/glb_router.c:817-848 | takes the step `ChooseAgain` |
| `LeastConnected.LeastScanIsBest` | src/glb_router.c:445-458 | the scan returns the first eligible row of greatest positive usage, or none when there is none |
| `LeastConnected.RunIsFair` | src/glb_router.c:226-231 | after any k choices from empty, conns_i * w_j <= w_i * (conns_j + 1) for all i, j, and there are k connections |
| `LeastConnected.SharesFollowWeights` | src/glb_router.c:440-464 | after k choices every destination's count is within rounding of its weight's share: (k+1) w_j <= W (conns_j+1) and W conns_j <= w_j (k+n-1) |
| `RoundRobin.OneTurn` | src/glb_router.c:467-486 | one choice takes the eligible row the cursor reaches first and passes the turn to the next one |
| `RoundRobin.NoTurn` | src/glb_router.c:467-486 | with nothing eligible no row is chosen and the cursor is put back |
| `RoundRobin.RunIsRotation` | src/glb_router.c:467-486 | with a fixed eligible set G any consecutive choices, as many as G has members, are a rotation of G: each member once, in circular order |
| `RoundRobin.RunIsPeriodic` | src/glb_router.c:467-486 | the choices repeat with period the size of G |
| `WeightMap.MapPartition` | src/glb_router.c:190-224 | each row's interval of the map is as long as its part of the eligible weight, zero when it is not eligible |
| `WeightMap.MapInOrder` | src/glb_router.c:190-224 | intervals follow each other upwards inside [0, 1] |
| `WeightMap.MapEndsAtOne` | src/glb_router.c:215-223 | the last interval ends at 1 |
| `WeightMap.OwnerIsUnique` | src/glb_router.c:190-224 | no point belongs to two intervals |
| `WeightMap.LookupFindsOwner` | src/glb_router.c:532-541 | a point of [0, 1) is answered by the row that owns it, which is eligible |
| `WeightMap.PointSpacing` | src/glb_router.c:533 | hints are spread evenly over an interval of length one |
| `WeightMap.HintPromise` | src/glb_router.c:532-541 | a hint gets an eligible destination if there is one and none otherwise, if and only if it is at least 5 or row 0 is eligible |
| `WeightMap.RecoversAfterRetry` | src/glb_router.c:524-530 | the first choice after the retry time redoes the map over the destinations usable at that moment |
| `WeightMap.FailedIsNotLookedUp` | src/glb_router.c:626-655 | a destination that fails while in use is not returned by the lookups that follow (hints from 5 on) |
| `TopChoice.TopScanFinds` | src/glb_router.c:163-188 | after the scan no usable row reaches the minimum weight times 1+eps; a replaced top is usable and has exactly that minimum weight; a top not beaten by the factor is kept |
| `TopChoice.TopFailsOver` | src/glb_router.c:626-647 | when the top fails a best remaining usable destination replaces it if there is one |
| `TopChoice.TopIsSticky` | src/glb_router.c:130-188 | over a whole run without adds, removals or failure of the top, and with no row outweighing it by the factor, the top stays and the single policy always chooses it |
| `TopChoice.TopRecheckedAfterRetry` | src/glb_router.c:562-567 | the first choice after the retry time looks for a top again and leaves no row usable at that moment that outweighs it by the factor |
| `Probing.ChosenPassedCheck` | src/glb_router.c:426-545 | under every policy but single, whatever rows failed their probe on the way, the chosen one passed its own |
| `Probing.ChooseRecords` | src/glb_router.c:90-110 | what a choice writes under each policy: the row taken has the time stamp of its READY answer if it was asked; every row the policy wanted and came to before it was asked, did not answer READY, and carries the time read then; no other row's check or failure time changes |
| `Probing.ReadyAnswerLasts` | src/glb_router.c:99-102 | in every run, after a READY answer stamped t every check of that destination that starts before t plus the probing interval passes whatever a probe would say, through any operations that keep it listed |
| `Probing.FailedAnswerLasts` | src/glb_router.c:103-128 | in every run a destination whose probe failed carries that time or a later one, is not eligible until the retry time has passed, and is not chosen by any policy that looks at eligibility |
| `Probing.RetrySpan` | src/glb_router.c:83-88 | the retry time r satisfies (r-1) 2^30 <= health check interval < r 2^30 nanoseconds |
| `FreshMap.RunIsFresh` | src/glb_router.c:524-530 | in every run without top-weighting and probing and with a clock that does not go back, intervals never overlap and every destination that has one is usable at that time |
| `FreshMap.RunChoosesUsable` | src/glb_router.c:494-545 | so in every such run each choice from a hint of at least 5 goes to a destination of positive weight that has not failed within the retry interval |
| `FreshMap.FailureClearsPart` | src/glb_router.c:626-655 | a destination that fails keeps its part of the map if and only if it was not eligible |
| `Scenarios.TopRepeats` | src/glb_router.c:556-655 | with top-weighting, a run from the empty table, started at any time, after which a destination fails and is chosen again at once |
| `Scenarios.ProbedRepeats` | src/glb_router.c:426-545 | with probing, such a run too |
| `Recovery.RedoneStrands` | src/glb_router.c:524-530 | when the map is redone and no further look is due, every destination of positive weight has a part if and only if none of them is still out |
| `Recovery.StrandedRuns` | src/glb_router.c:234-848 | in every run without top-weighting nobody is stranded throughout if and only if no step redoes the map for the last time while a destination of positive weight is out |
| `Recovery.RunFindsUsable` | src/glb_router.c:494-545 | in such a run, with no look at the map outstanding, a choice from a hint of at least 5 finds a destination if and only if one is usable |
| `Recovery.RunFindsPart` | src/glb_router.c:494-545 | at every choice of such a run, with or without a look at the map outstanding and whoever is stranded, a hint of at least 5 finds a destination if and only if some row has a part of the map it is looked up in |
| `Recovery.RedoneStrandsTop` | src/glb_router.c:190-224 | with top-weighting, a redone map gives a part to every destination that weighs enough if and only if none of them is out |
| `Recovery.SingleFinds` | src/glb_router.c:488-492 | the single policy finds a destination if and only if its top is usable, or the choice looks at the top and there is a candidate |
| `Scenarios.SingleMisses` | src/glb_router.c:488-655 | a run, started at any time, after which nobody is overlooked and a destination is usable, and yet the single policy finds none |
| `Recovery.StrandedStays` | src/glb_router.c:524-530 | whoever is stranded stays so through any choice |
| `Scenarios.StrandedForever` | src/glb_router.c:635-640 | a run after which the only destination is usable and yet no choice ever finds it |
| `Recovery.RedoneOverlooks` | src/glb_router.c:163-188 | when the top is looked at and no further look is due, no destination outweighs it if and only if none that does is still out |
| `Recovery.OverlookedRuns` | src/glb_router.c:234-848 | in every run with top-weighting, under every policy, nobody is overlooked throughout if and only if no step looks at the top for the last time while a destination that outweighs the outcome is out |
| `Scenarios.OverlookedForever` | src/glb_router.c:561-566 | a run after which every choice goes to the lighter of two usable destinations |
| `Failover.ChooseAvoidsRecent` | src/glb_router.c:111-128 | within the retry interval no destination that failed since the loop began is chosen, under every policy |
| `Failover.OtherStep` | src/glb_router.c:658-727 | a step of another thread keeps rows in place, this thread's connection counted, and lets failure times only move on |
| `Failover.ConnectDst` | src/glb_router.c:657-727 | the loop ends; it tries pairwise different destinations, at most as many as there are, whatever other threads do; the states it goes through follow from its choices, from what others do while the lock is released, and from undoing failed attempts; every count changes by what others did in those intervals and by one for a connection made, so without others by one on success and not at all otherwise |
| `Concurrency.StepKeeps` | src/glb_router.c:234-352 | every step of every thread before which the code's assertions hold keeps the whole invariant |
| `Concurrency.SoundCondition` | src/glb_router.c:690-695 | the assertions of the connect loop and of disconnecting hold before a step if and only if it lowers no count that uncounted owners have used up |
| `Concurrency.SoundRuns` | src/glb_router.c:658-848 | they hold throughout a run if and only if no step of it does that |
| `Concurrency.CloseAfterReAdd` | src/glb_control.c:170-192 | a run that removes and re-adds an address, after which closing an open connection fails the assertion |
| `Concurrency.InvIsSound` | src/glb_router.c:690-695 | while no count is short, held rows exist and every count the code lowers is positive |
| `Concurrency.StaysSound` | src/glb_router.c:658-848 | in a run that adds no address a connection still owns, no count is ever short and all those assertions hold |
| `Concurrency.RedirectAssertions` | src/glb_router.c:817-848 | of the two assertions made when redirecting, the first holds if and only if the old address is listed, the second if and only if it is listed exactly when another destination is found |
| `Concurrency.FirstAssertionFails` | src/glb_router.c:830-831 | a run in which the old address has been removed |
| `Concurrency.SecondAssertionFails` | src/glb_router.c:833-835 | a run in which the only destination fails |
| `Concurrency.HeldPointerIsStable` | src/glb_router.c:669-707 | a thread connecting with the lock released points into the table as it is now, never into one that an add or a removal has reallocated, and the row still holds the address it chose |
| `Concurrency.TableIsFixed` | src/glb_router.c:262-271 | while anyone is connecting no step of any thread reallocates the table or moves, adds or removes a row |
| `Concurrency.TableIsFixedThroughout` | src/glb_router.c:262-271 | so the table is the same at both ends of any stretch of a run through which one connection stays in the loop |
| `Interference.OthersPerform` | src/glb_router.c:658-727 | a step of another thread meanwhile is at most one operation on the router, one that the connect loop allows for |
| `Interference.StretchIsOthers` | src/glb_router.c:658-727 | over any such stretch the router at the end is the one at the start after a sequence of those operations, as `Failover.ConnectDst` assumes |
| `Concurrency.NoLostWakeUp` | src/glb_router.c:263-272 | a changer waiting without a pending signal waits for a thread still in the connect loop, and the row it found before waiting is still right, in a table not reallocated since |
| `Concurrency.CountsAreExact` | src/glb_router.c:778-848 | every listed destination's count is the number of connections, in flight or pooled, that own its address, plus those dropped from the pool while it was listed, less those that owned it when it was added |
| `Concurrency.ExactRuns` | src/glb_router.c:778-848 | the counts are exactly the owners throughout a run if and only if no connection with a listed address is ever dropped and no address is added that a connection still owns |
| `Concurrency.DropCondition` | src/glb_control.c:189-192 | dropping an address keeps exact counts exact if and only if it is not listed or has no pooled connection |
| `Concurrency.ListedDropHappens` | src/glb_control.c:189-192 | a run after which a destination counts a connection that nobody owns |
| `Concurrency.TotalIsLimited` | src/glb_router.c:731-752 | with one listener, whatever is dropped from the pool or added again, the total exceeds a non-negative max_conn by no more than the number of redirected connections whose old address was gone |
| `LifeCycle.LimitAndLosses` | src/glb_router.c:731-848 | that number is exactly the count, over the run, of connections redirected from an address no longer listed to another one |
| `LifeCycle.ConnectionMovesOn` | src/glb_router.c:658-848 | a connection goes from the connect loop or an asynchronous choice to the hand-off and into the pool, at the address chosen, and moves by no event but its own |
| `LifeCycle.ChoiceIsFollowed` | src/glb_router.c:658-848 | each choice made for a connection sends it to the address of the row chosen, and ends it if and only if none was |
| `LifeCycle.ChangeTakesEffect` | src/glb_router.c:244-346 | a requested change takes effect once and as a whole, at once unless it adds or removes while somebody is connecting, otherwise when its thread wakes and nobody is; until then it is pending, and no other event adds, removes or re-weights a destination |
| `Concurrency.ReAddCondition` | src/glb_router.c:276-299 | adding an unlisted address keeps the counts exact if and only if no connection still owns it |
| `Concurrency.SecondChangerDuplicates` | src/glb_router.c:244-272 | two threads that both found an address missing would add it twice |
| `PoolTable.SetEndCoherent` | src/glb_pool.c:272-282 | registering an end keeps poll array, slot indices and route map mutually inverse, slot 0 the control descriptor, unused slots zero |
| `PoolTable.ResetEndCoherent` | src/glb_pool.c:206-240 | removing an end by moving the last slot over it keeps them mutually inverse |
| `PoolTable.RemoveUndoesAdd` | src/glb_pool.c:332-336 | the non-full removal used in failover puts the table back as before the add, up to a permutation of slots |
| `PoolObject.Pool.RemoveConn` | src/glb_pool.c:294-337 | removal unregisters exactly the two descriptors of one connection, closes the server's, and when full the client's and frees it; the table stays coherent with fd_max = 1 + 2 n_conns |
| `PoolObject.Pool.HandleAdd` | src/glb_pool.c:373-405 | adding registers exactly the two descriptors with their first events, or on a failed connect closes and frees the connection; coherence is kept |
| `PoolObject.Pool.Redirect` | src/glb_pool.c:695-704 | failover replaces the server's descriptor only, even when the kernel hands out the closed number again; the server end then has the new socket, is incomplete and waits to be written to, the client end has its old socket and waits to be read; the old server socket is closed and the new one open, or on failure the client's is closed too; every other connection keeps its sockets, kinds and events |
| `PoolObject.Pool.GiveUp` | src/glb_pool.c:705-709 | with no destination left both sockets, open before, are unregistered and closed and no other, and the connection is freed; every other connection keeps its sockets, kinds and events |
| `PoolObject.Pool.SetEvents` | src/glb_pool.c:242-257 | end and slot change events together, nothing else changes |
| `PoolObject.Pool.DropDst` | src/glb_pool.c:416-441 | the countdown ends at zero inside the map; exactly the matching connections are unregistered; exactly their sockets are closed, except for clients of connections that leak |
| `PoolObject.LeakedClient` | src/glb_pool.c:416-441 | dropping a connection still under way leaves its client socket open, unregistered and the connection allocated |
| `PoolObject.Pool.Shutdown` | src/glb_pool.c:452-471 | every connection is unregistered and none is left; exactly their sockets, except for clients that leak, and the control descriptor are closed |
| `PoolObject.CountDropsByTwo` | src/glb_pool.c:425-439 | the connection met at the cursor has both descriptors at or beyond it, so removing it lowers the remaining count by two |
| `PoolObject.SweepRemoves` | src/glb_pool.c:430-438 | one removal extends the swept part by exactly that connection |
| `Relay.ReadKeeps` | src/glb_pool.c:606-672 | a read appends exactly the bytes read to the stream, and keeps integrity, counters and flow control |
| `Relay.WriteKeeps` | src/glb_pool.c:720-749 | a write, with or without completion of the connect, keeps integrity, counters and flow control |
| `Relay.ReadEnds` | src/glb_pool.c:614-668 | a read ends the connection if and only if there is room and the socket was closed, or bytes were read and the send met a broken pipe at an end that is not incomplete; a full buffer, an empty socket and an error change nothing |
| `Relay.WriteEnds` | src/glb_pool.c:674-749 | a write ends the connection if and only if its connect failed with no other under way, or bytes were sent and met a broken pipe; the server end becomes complete exactly when its connect completed or no server is left |
| `Relay.ReadDelivers` | src/glb_pool.c:622-637 | what is read is sent on at once: the socket gets exactly as many bytes as it accepts, those that waited first |
| `Relay.WriteDelivers` | src/glb_pool.c:733-746 | a write sends exactly as many of the waiting bytes as the socket accepts, after a connect only if it completed |
| `Relay.LastsUntilEnd` | src/glb_pool.c:569-749 | in every run a connection lasts until the first of those events |
| `Relay.RelayIntegrity` | src/glb_pool.c:514-603 | in every run the bytes read for an end are the bytes delivered followed by buf[sent..total], with sent < total <= size or both zero |
| `Relay.FailoverStartsFromFirstByte` | src/glb_pool.c:674-718 | until a connect completes the server has got nothing and the buffer holds the client's stream from its first byte |
| `Relay.NeverWedges` | src/glb_pool.c:533-568 | in a run without such errors an end has WRITE interest exactly when bytes wait, and an end without READ interest faces a full buffer that is armed |
| `Relay.UnhandledCondition` | src/glb_pool.c:581-600 | every read or write event keeps flow control intact if and only if it is not an unhandled send error after a read with the end not armed, or after a connect completed with bytes held back |
| `Relay.FlowingRuns` | src/glb_pool.c:514-749 | flow control is intact throughout a run if and only if no event of it is such an error |
| `Relay.ReadsIntoSpace` | src/glb_pool.c:695-704 | the client is read against a full buffer exactly from a retry that met one until it drains, and reads then change nothing; the server never is |
| `Relay.FullBeforeCompletion` | src/glb_pool.c:674-718 | both the error after completion and the futile reads are reachable |
| `Relay.ReadCanBreak` | src/glb_pool.c:606-672 | so is the error after a read |
| `Relay.CountersBalance` | src/glb_pool.c:533-536 | bytes counted as read minus bytes counted as sent are the bytes buffered |
| `ConnectionObject.Connection.SendTo` | src/glb_pool.c:514-603 | the send in place takes the step `SendData` |
| `ConnectionObject.Connection.Read` | src/glb_pool.c:606-672 | the read handler on array buffers takes the step `HandleRead`, about which `Relay.ReadKeeps`, `Relay.ReadEnds` and `Relay.ReadDelivers` speak |
| `ConnectionObject.Connection.Write` | src/glb_pool.c:720-749 | the write handler in place takes the step `HandleWrite` |
| `ControlPipe.NoLostConfirmation` | src/glb_pool.c:473-512 | in every interleaving the waiting senders are the unconfirmed commands plus the failed writes, and each confirmation finds a waiter |
| `ControlPipe.HandledInOrder` | src/glb_pool.c:473-512 | at every point of every run the commands confirmed, the one being handled and those in the pipe are together exactly those written, in the order they were written |
| `ControlPipe.ReleasedAfterOwnCommand` | src/glb_pool.c:980-997 | with one sender at a time a sender is released only after its own command was handled |
| `ControlPipe.WakeCondition` | src/glb_pool.c:473-512 | before any crossing, whichever waiter the signal wakes had its own command handled, if and only if there is just one waiter |
| `ControlPipe.OwnCommandRuns` | src/glb_pool.c:980-997 | up to any point of a run, with any number of senders and failed writes, senders were released only after their own commands if and only if no confirmation woke another's sender |
| `ControlPipe.TwoSendersCanCross` | src/glb_pool.c:980-997 | with two senders one can be released by the other's command |
| `Watchdog.LatencyBounds` | src/glb_wdog.c:365-377 | over any run of samples the smoothed latency stays between zero and the largest sample |
| `Watchdog.EntryLatency` | src/glb_wdog.c:365-377 | the latency kept with an entry is the smoothed value of its fresh READY samples alone, whatever other results come between |
| `Verdicts.CopiedIs` | src/glb_wdog.c:365-377 | (lf+1) times the new latency is the fresh READY sample plus lf times the old one, otherwise the latency stays; a fresh NOTFOUND adds one failure; nothing else about the entry changes |
| `Verdicts.MaxLatIsLargest` | src/glb_wdog.c:365-368 | the latency weights are scaled by is that of a fresh entry and no fresh entry's is larger, or it is zero |
| `Watchdog.LatencyWeighting` | src/glb_wdog.c:382-404 | for fresh READY entries new weight times latency is configured weight times the largest latency, and no weight falls below the configured one |
| `Watchdog.SettledWeight` | src/glb_wdog.c:528-577 | a visited entry's weight is the computed one when that is zero or negative, and within 10% of it when it is positive |
| `Watchdog.SilentIsHeld` | src/glb_wdog.c:543-577 | an entry not heard from is not shown as ready; if listed its row is kept at weight zero with its connections, if not it stays unlisted |
| `Verdicts.VisitFollows` | src/glb_wdog.c:382-577 | for an entry that agreed with the router: AVOID leaves its row at weight zero with its connections, NOTREADY and NOTFOUND leave it unlisted and recorded at -1, READY lists it at its old weight if that is within a tenth of the right one and at the right one otherwise (the configured weight, or scaled by latency), silence holds it; nothing else about the entry changes but the state shown after silence |
| `Verdicts.PassFollows` | src/glb_wdog.c:492-578 | in every pass the router's row of every entry whose thread has not ended follows its backend's report in that way, and the entry stays watched under the same orders |
| `Watchdog.PassAgrees` | src/glb_wdog.c:510-578 | an entry that survives the pass agrees with the router afterwards if and only if it did before or its visit tells the router |
| `Watchdog.RepairCondition` | src/glb_wdog.c:528-577 | an entry added while listed is put right by a visit if and only if its backend reports READY or AVOID |
| `Watchdog.AgreementRuns` | src/glb_wdog.c:123-584 | through any run of changes, passes and traffic all entries agree with the router if and only if no address is taken up that the router lists already |
| `ProbeContexts.BackedRuns` | src/glb_wdog.c:513-526 | through any run every probe context a row points to belongs to a watched entry if and only if no entry is reaped whose row is still listed |
| `ProbeContexts.ContextFreed` | src/glb_wdog.c:513-526 | a run in which a row outlives its probe context |
| `Watchdog.ReapedThenAdded` | src/glb_wdog.c:185-526 | a run in which an entry is reaped and its address, still listed, taken up again |
| `Watchdog.PassEntries` | src/glb_wdog.c:510-526 | what the loop's result means: each surviving entry, settled once, stands in the list exactly once, and nothing else does |
| `Watchdog.AddedAgrees` | src/glb_wdog.c:185-196 | a new entry agrees with the router if and only if the router does not list its address |
| `Watchdog.Dog.CopyResults` | src/glb_wdog.c:498-505 | the forward loop takes over every result and finds the largest smoothed latency |
| `Watchdog.Dog.CollectResults` | src/glb_wdog.c:492-584 | both loops together take the step `CollectStep`, about which `Verdicts.PassFollows` speaks: the list holds exactly the entries whose thread has not ended, each settled once and there once; agreement is kept; rows of other addresses are unchanged; the result is the number of those entries that reported |
| `Watchdog.Dog.ChangeDst` | src/glb_wdog.c:123-247 | adds, refers to again, or tells the backend thread to quit if the caller has the right to; explicit settings win; addresses stay different; agreement is kept exactly when no listed address is added anew |
| `Verdicts.ChangesAreObeyed` | src/glb_wdog.c:185-247 | every other entry stays as it was; the one named takes the weight if it is set explicitly or none was before, and is told to quit by an explicit removal, or by any if it was only discovered, and never told otherwise; a new one starts unlisted with no result |
| `Verdicts.ExplicitOutlives` | src/glb_wdog.c:207-243 | in every run a destination set explicitly keeps its weight and its order to quit or not, whatever is discovered, until the next explicit change of it or the end of its thread |
| `Tokens.EndsMatchStarts` | src/glb_misc.c:36-56 | token ends and token starts alternate |
| `Tokens.ListFits` | src/glb_misc.c:43-56 | a list sized by pass one has room for every start pass two finds, and is filled |
| `Tokens.TokensCover` | src/glb_misc.c:36-56 | every character that is no separator, and the first one, is in a token |
| `Tokens.TokensDisjoint` | src/glb_misc.c:36-56 | tokens do not overlap or touch |
| `Tokens.TokenText` | src/glb_misc.c:37-41 | the C string at a start is the maximal separator-free run from there, the first character always kept |
| `Tokens.ParseTokens` | src/glb_misc.c:17-62 | fails exactly on the empty string; otherwise separators are cut and the list is exactly the token starts in order |

## Left out

- Sockets, epoll, splice, socket options and DNS: only the outcomes of the calls are inputs.
- The event-dispatch loop over ready slots: each handler is one step.
- `pool_conn_end_dstaddr`: which connections a drop matches is an arbitrary predicate on connections.
- Connection ends in the descriptor table are values in a map keyed by reference; the relay of one connection uses objects with array buffers, separate from that table.
- The wait in `glb_router_change_dst` is in `Concurrency` only; the router object models the part after it.
- `Concurrency.TotalIsLimited`: counts lost redirects instead of excluding them.
- `Failover.ConnectDst`: for the two map policies it excludes hints below 5, top-weighting, probing and a clock that goes back; `FreshMap.FailureClearsPart` says when a failed row is kept.
- Membership discovery after the pass, fail-count limits that make a backend thread quit, and the thread life cycle itself: whether a thread has ended is an input.
- Infinite weights from a zero latency, and floating-point rounding.
- Allocation failures.
- The `libglb` variant without connection counts.
- Options, environment, control socket, statistics printing, logging, signals and daemonising: easy claims only.
