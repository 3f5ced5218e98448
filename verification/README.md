# flowd: the scheduler and the network it drives

This project models the cooperative scheduler of the flowd runtime, the edges and components that
depend on it, the construction of a network from a graph description and the edits of that
description, and proves what the runtime relies on: no wake-up is lost, the lazily cleaned timer heap
is a plain map, waiting is bounded, retirement is final, a network at rest has read everything it was
sent, a delayed packet is never stranded, and the IMAP component/worker protocols neither lose nor
reorder anything.

| file | what it holds |
|---|---|
| `Prelude.dfy`, `ComponentApi.dfy` | options, names and their order, filters; budgets, call results, contexts, buffer sizes |
| `SchedulerModel.dfy` | the scheduler's locked state with a plain deadline map, and each critical section as a function on it |
| `Machine.dfy` | the scheduler as a state machine with an event log: signals, wake-ups, stop, drain, commit, pop, clear, call, settle; the structural invariant |
| `Lifecycle.dfy`, `Fairness.dfy` | theorems over all runs: signals, timers, retirement, exit; bounded waiting and the published counters |
| `BudgetLoop.dfy`, `MainLoop.dfy` | a dispatch of an arbitrary component as a function, and what its budget bounds and grants; what a turn of the main loop does, and that turns serve the queue |
| `Scheduler.dfy` | the scheduler as a class that updates its fields, with the heap and its stale entries; every method is proved against `SchedulerModel`, and `Run` is proved to be a run of the machine |
| `Ring.dfy`, `Network.dfy` | what happens to a ring buffer during a call; channels on top of the machine, and quiescence |
| `Drop.dfy`, `Delay.dfy`, `DelaySystem.dfy` | two components as classes; Delay under the scheduler |
| `ImapAppend.dfy`, `ImapFetch.dfy`, `ImapNetwork.dfy` | component and worker joined by two FIFO channels, as protocols and as classes; their calls under the scheduler |
| `Wiring.dfy`, `Startup.dfy` | from a graph to channels, wakers and preloaded packets; from there to a started network |
| `Graph.dfy`, `Deployment.dfy` | the graph object and its edits; what edits mean for the construction of channels |

The unlocked window in which a component runs is a state of its own (`Running`, in three phases), and
other threads may act in any state in which they could get the lock; `stop` takes no lock and may act
anywhere. Components are arbitrary: a call may leave any component, any context and any report behind.
Time is an integer handed to each drain. A class method states its whole new state through `View()`,
a value of the specification state.

What the surroundings do while code runs without the lock is a parameter of that code: `Turn` gives the
actions of other threads around each step of the main loop and after each call of a component; the
components' `process` takes a `world`, which says for every moment of the call what is written to IN,
whether IN is closed, which signals arrive, how much room appears on OUT, how the clock moves or what
the worker does. The theorems hold for every such parameter.

## Findings

Where the code does not do what its comments or its shape suggest, the code is modelled as it is, and
a lemma says when it does.

* Delay decrements its 32-bit budget without looking in the release loop and again when it accepts a
  packet; the decrement is modelled with wrap-around, as a release build does it. A call can take more
  decrements than its budget exactly from the states `Delay.DelayComponent.Overruns`: the fired timer
  covers more packets than the budget, or just as many and IN has a packet or may get one, and neither a
  stop nor CONF ends the call first. `Process` says that no other call does, `OverrunningCall` that from
  each such state some call does (`Delay.BudgetUnderflow` says the same of the effects, example in
  `Delay.UnderflowExample`). The dispatch ends after such a call (`DelaySystem.OverrunEndsDispatch`).
* Delay's polling interval for a full OUT has no effect: the request is overwritten with the front
  packet's ready time, which has already passed (`Delay.FullMeansAtOnce`).
* Delay, Drop and IMAPAppend look whether IN is abandoned after they last looked for a packet. A packet
  written in between, by a producer that then closes, is left in IN although the component finishes for
  the end of input. The states in which a call can begin and lose a packet so are `Exposed`: IN open and
  empty, no stop waiting, and nothing that keeps the call from reaching its end (for Delay a queue that
  the fired timer covers, for IMAPAppend nothing queued and a live session or connect). `Process` says
  that a call that finishes at the end of input leaves IN empty unless it began exposed, in particular
  if IN was abandoned before; `LosingCall` says that from every exposed state a packet can be lost
  (`Drop.DropComponent`, `Delay.DelayComponent`, `ImapAppend.AppendNode`).
* IMAPAppend sends the body of a packet with `as_bytes().unwrap_or(&[])`: a text packet is stored as an
  empty message. At the end of input the server holds the packets themselves exactly when all of them
  are bytes (`ImapAppend.EofMeansStored`, example in `ImapAppend.TextStoredEmpty`).
* Initial packets are grouped by the port as spelled, ports of the runtime are upper case: a packet for
  `IN` does not ride on the channel of an edge to `in`. The packets for a runtime port all ride on the
  channels of edges exactly when each has an edge that spells its target the same way
  (`Wiring.SpellingDecides`, example in `Wiring.SpellingExample`); the others get a channel each
  (`Wiring.OwnChannels`).
* `rename_node` followed by the reverse rename restores a graph exactly when no edge already mentioned
  the new name (`Graph.RenameUndone`). The editor accepts edges to absent nodes, so there are graphs
  that are not restored (`Graph.DanglingEdgeCaptured`, built in `Graph.MakeDangling`). An initial packet
  with empty data cannot be removed again (`Graph.EmptyPacketStays`), and the graph can no longer be
  started: the packet is an edge from a process that does not exist (`Deployment.EmptyPacketBlocks`).

## Model

| member | source | states |
|---|---|---|
| SchedulerModel.EarlierIsStrictOrder | src/scheduler.rs:36-44 | the heap's order is a strict total order on entries, so the entry on top is unique |
| SchedulerModel.DueOrder | src/scheduler.rs:402-428 | the firing sequence holds exactly the live deadlines that have come, strictly ascending in the heap's order |
| SchedulerModel.FireThenDrain | src/scheduler.rs:404-426 | firing the first due deadline and then draining is the drain: the loop body meets the one-step definition of draining |
| Machine.DrainFires | src/scheduler.rs:402-428 | a drain fires exactly the nodes whose latest deadline is due, stamps each with its own deadline, keeps all later deadlines, and appends the nodes not yet queued by deadline, then descending id |
| Machine.StepKeepsSound | src/scheduler.rs:136-156 | every step keeps the structural invariant: queue without repetition and equal to its set, depth its length, equal keys of nodes and components, flags covering them and the checked-out node |
| Machine.RunKeepsSound | src/scheduler.rs:223-319 | the structural invariant holds in every reachable state |
| Machine.PopKeepsStructure | src/scheduler.rs:256-271 | popping from a non-empty queue always yields the node at the front with its component and context: the two branches for missing ones are never taken |
| Scheduler.Scheduler.constructor | src/scheduler.rs:113-134 | a new scheduler has the empty state and is running |
| Scheduler.Scheduler.AddNode | src/scheduler.rs:136-149 | registration: a fresh context, a lowered flag, zero counters, nothing else |
| Scheduler.Scheduler.AddComponent | src/scheduler.rs:151-156 | the component is stored under the node's name, nothing else changes |
| Scheduler.Scheduler.SignalReady | src/scheduler.rs:178-191 | true exactly for registered nodes; raises the flag, enqueues the node if absent and syncs the depth |
| Scheduler.Scheduler.WakeAt | src/scheduler.rs:193-205 | true exactly for nodes at rest; replaces the node's deadline |
| Scheduler.Scheduler.NextValidTimerDeadline | src/scheduler.rs:390-400 | returns exactly the minimum of the deadline map (None iff it is empty), drops only stale heap entries, terminates |
| Scheduler.Scheduler.DrainExpiredTimers | src/scheduler.rs:402-428 | the loop over the lazy heap does to the fields exactly what draining means on the plain map |
| Scheduler.Scheduler.TakeNext | src/scheduler.rs:256-271 | pop, depth and iteration counter, the look-ups and their early exits |
| Scheduler.Scheduler.Settle | src/scheduler.rs:275-317 | accounting, then retirement or re-insertion with the requested deadline and the requeue rule; `running` falls exactly when the dispatch finished and no node or component is left |
| Scheduler.Scheduler.ExecuteComponent | src/scheduler.rs:321-383 | the budget loop computes the dispatch of any component, and is exactly the stretch of the machine's run in which the flag is cleared and each call of the trace is made, with other threads acting before the first and after each |
| Scheduler.Scheduler.TakeTurn | src/scheduler.rs:223-319 | once the due timers have fired, the turn exits iff the scheduler has stopped; else, with an empty queue, nothing happens, and otherwise exactly one dispatch starts, of the node at the front, which is called; all of it a stretch of the machine's run with other threads acting wherever the lock is free |
| Scheduler.Scheduler.Run | src/scheduler.rs:223-319 | the main loop takes one such turn after the other until one exits, and is a run of the machine, whatever components do and whatever other threads do wherever the lock is free |
| MainLoop.TurnServes | src/scheduler.rs:252-274 | what a turn leaves in the log: without an exit and with a queue, one dispatch, of the front node after the drain, a call of it, and no retirement but its own; otherwise nothing after the drain |
| MainLoop.QueuedIsServed | src/scheduler.rs:223-319 | a queued node at position k is called in one of the next k + 1 turns that do not exit, whatever other threads and components do |
| Lifecycle.NoLostWakeUp | src/scheduler.rs:178-191 | after an accepted signal the node is queued until a dispatch of it begins or it retires, under every interleaving |
| Lifecycle.SignalAccepted | src/scheduler.rs:178-191 | in every reachable state a signal is accepted iff the node has not retired, checked out or not, and queues it at once without moving others |
| Lifecycle.RaisedFlagIsServed | src/scheduler.rs:301-317 | in every reachable state a raised ready flag belongs to a queued or running node, and one that is up at the end of an unfinished dispatch requeues the node |
| Lifecycle.ArmingFate | src/scheduler.rs:193-205 | every arming is fired at its own deadline and not before, superseded, cancelled by retirement, or is the live deadline |
| Lifecycle.FiringHasOneArming | src/scheduler.rs:402-428 | every firing is the fate of exactly one earlier arming: nothing fires twice |
| Lifecycle.RetirementIsFinal | src/scheduler.rs:284-299 | a retired node is in no table and is never queued, armed, fired, called or dispatched again |
| Lifecycle.ExitAndStop | src/scheduler.rs:252-254 | run returns only after stop or when all nodes retired; at most one dispatch after stop; none after the last retirement |
| Lifecycle.RunningTells | src/scheduler.rs:284-299 | in every reachable state of a scheduler with nodes, `running` holds iff nobody has called stop and some registered node has not retired |
| Lifecycle.EnqueuedForAReason | src/scheduler.rs:301-317 | a node enters the queue only by an accepted signal, a due deadline of its own, or a dispatch of its own that worked or left its flag up |
| Lifecycle.IdleDispatchRests | src/scheduler.rs:301-317 | an idle dispatch uses up the signals before it: with nothing new the node is not queued again |
| Lifecycle.OwnFlagIsServed | src/scheduler.rs:301-317 | a component that raises its own flag and reports no work is queued again, whatever other threads do until it is settled |
| Fairness.BoundedWaiting | src/scheduler.rs:256-260 | a node at position k waits for at most k dispatches, each of a different node ahead of it, in queue order, and for at most 96(k+1) calls: those the running dispatch and the k nodes are entitled to |
| Fairness.MetricsAgree | src/scheduler.rs:277-282 | loop iterations count dispatches; the published counters equal the contexts' at rest; executions never exceed budget times dispatches; a node keeps its budget class |
| BudgetLoop.BudgetHolds | src/scheduler.rs:330-380 | at most as many calls as budget, strictly falling budget, all but the last report work and stay below the budget; honest reports stay within it |
| BudgetLoop.OutcomeCounts | src/scheduler.rs:353-378 | the outcome counts exactly the working calls and their units, and says finished iff the last call finished or panicked |
| BudgetLoop.DispatchWithinBudget | src/scheduler.rs:321-383 | a dispatch makes between one call and the class budget, executions do not exceed work units nor the budget |
| BudgetLoop.ChargeIsExact | src/scheduler.rs:353-364 | after a working call the budget is the lesser of what the component left and what the reported units leave, floored at zero; a component that counts its own work down is not charged twice |
| BudgetLoop.BudgetChain | src/scheduler.rs:330-372 | each call begins with just that budget, above zero; a dispatch whose last call works has used its budget up |
| BudgetLoop.EagerUsesBudget | src/scheduler.rs:321-383 | a component that always works and reports what it takes does exactly 32, 8 or 96 units in a dispatch, by class |
| Network.NetStepSound | component_api/src/lib.rs:59-107 | every step, with pushes split into write and signal and several writes covered by one signal, keeps: a non-empty inport has a reader that is queued, about to be signalled, or running and bound to look again |
| Network.SignalAllQueues | src/runtime.rs:1366-1369 | the initial signalling queues every registered node and keeps the structure |
| Network.Quiescence | src/scheduler.rs:301-317 | at rest, with no push between its write and its signal and an empty queue, every inport of an unfinished reader that keeps the NoWork contract is empty |
| Network.CallKeepsContract | component_api/src/lib.rs:59-107 | a reader that returns NoWork only from calls in which it found its ring empty keeps the NoWork contract: each call, arrivals in mid-call included, is a legal stretch of the run |
| Ring.Contents | component_api/src/lib.rs:59-107 | what is left in a ring is what was there and what arrived, in order, less the packets read |
| Drop.DropComponent.HandleSignal | components/drop/src/drop.rs:44-57 | one signal is consumed; stop is reported; a ping is answered with a pong unless two replies are waiting |
| Drop.DropComponent.Process | components/drop/src/drop.rs:39-100 | exactly what a call removes, reports, leaves of the budget and answers, for every ring, budget and surroundings; a signal is read first and another before any packet, and a stop among the two is heeded with nothing taken; a finish for the end of input leaves IN empty unless the call began exposed |
| Drop.DropComponent.LosingCall | components/drop/src/drop.rs:60-94 | from every exposed state some surroundings make a call finish with their packet left in IN |
| Drop.DropReports | components/drop/src/drop.rs:90-99 | NoWork and an unforced Finished mean that the ring was empty as the call began, and what is there now arrived since; work is reported exactly and within the budget |
| Drop.DropKeepsContract | components/drop/src/drop.rs:60-99 | any call that `Process` can make, arrivals in mid-call included, is a legal stretch of the network's run: Drop keeps the contract of quiescence |
| Delay.DelayComponent.HandleSignal | components/delay/src/delay.rs:125-140 | one signal is consumed, and stop is reported exactly when that is what it says |
| Delay.DelayComponent.ReadConf | components/delay/src/delay.rs:100-123 | an unset delay becomes the duration in the first CONF packet, or 50 microseconds if that is unreadable or missing, and takes that packet off CONF; a set delay stays; a packet that is no text panics |
| Delay.DelayComponent.ReleaseDue | components/delay/src/delay.rs:161-183 | releases exactly the front packets the fired stamp covers, or a prefix of them until the room on OUT is used up, in order |
| Delay.DelayComponent.RunLoop | components/delay/src/delay.rs:143-197 | the loop's whole effect, with the surroundings acting between its steps: OUT is full only when its room is used up; a packet that is there is accepted; it is left by a stop, without budget, or after a look at an empty IN |
| Delay.DelayComponent.Process | components/delay/src/delay.rs:96-218 | the delay is what CONF says; a call performs a possible effect with it and the histories grow by it; it ends by stop exactly when a stop was read, and at once when one was there; OUT was full only if all its room was used; with budget left all that was in IN is taken and IN was seen empty; it finishes for the end of input iff IN is abandoned and nothing is pending, and then leaves IN empty unless the call began exposed; the budget is overrun only from a state that overruns |
| Delay.CallMeans | components/delay/src/delay.rs:143-218 | the same in plain terms: the queue without the packets released and with those accepted, each ready one delay after it was taken; a unit for every packet moved and the budget down by as many; the stamp used up; a request for the front packet's ready time |
| Delay.DelayComponent.LosingCall | components/delay/src/delay.rs:189-200 | from every exposed state some surroundings make a call finish with their packet left in IN |
| Delay.DelayComponent.OverrunningCall | components/delay/src/delay.rs:161-196 | from every state that overruns some surroundings make a call move more packets than its budget |
| Delay.BudgetUnderflow | components/delay/src/delay.rs:178-193 | no effect that the state, IN and OUT at the beginning of a call allow overruns the budget, iff the stamp covers fewer packets than the budget, or just as many and IN is dry |
| Delay.UnderflowExample | components/delay/src/delay.rs:178-193 | a call with nine packets due against a budget of eight reports nine units and leaves 2^32 - 1 |
| Delay.FullMeansAtOnce | components/delay/src/delay.rs:166-176 | after a full OUT the request is the front packet's past ready time, not the polling interval |
| DelaySystem.NoStrandedPacket | components/delay/src/delay.rs:199-211 | at rest, pending is non-empty iff the live deadline is the front packet's ready time or the node is queued with that stamp, and never both |
| DelaySystem.FiredDispatchReleases | components/delay/src/delay.rs:160-183 | the call that consumes a fired stamp sends all packets the stamp covers, or as many as OUT had room for when it began: with any room the front packet first; without, it kept its place |
| DelaySystem.OverrunEndsDispatch | src/scheduler.rs:353-372 | after a call that overran its budget the scheduler charges the units reported and has no budget left |
| DelaySystem.DelayIsFaithful | components/delay/src/delay.rs:143-204 | sent then pending are the packets taken, in order; ready times never decrease; nothing leaves before arrival plus delay |
| DelaySystem.ConfiguredDelayHolds | components/delay/src/delay.rs:100-204 | with the first packet on CONF by the first call a duration, every packet leaves no earlier than that long after it was taken, is ready just then, and a live deadline at rest is the front packet's; with none, or an unreadable one, 50 microseconds |
| DelaySystem.DoneIsMove | components/delay/src/delay.rs:96-218 | every call that `Process` can make is a move of that system, with the same state, report and context |
| DelaySystem.DelayKeepsContract | components/delay/src/delay.rs:185-218 | a call of Delay, arrivals in mid-call included, is a legal stretch of the network's run: Delay keeps the contract of quiescence |
| ImapAppend.InflightIsExact | components/imap/src/imap.rs:94-192 | the count is appends queued, handled, acknowledged but unread, or refused by the server in the run; an acknowledgement finds it positive; an active component's channel is open |
| ImapAppend.NoAppendBeforeConnect | components/imap/src/imap.rs:482-530 | the worker handles an append only in a session, and some earlier step of the run is the server's yes to a connect |
| ImapAppend.EofMeansStored | components/imap/src/imap.rs:170-178 | finishing at the end of input means that no append was refused and the server was sent one entry per packet taken from IN in the run, in order: its bytes, or none for a text; the packets themselves iff all are bytes |
| ImapAppend.AppendFate | components/imap/src/imap.rs:98-184 | a component has ended, or has a failure to read, iff it was stopped, met the end of its input or the server refused a connect or an append; otherwise, with nothing on its way, it waits for a configuration or is active with no append counted |
| ImapAppend.DialsAsConfigured | components/imap/src/imap.rs:137-147 | the worker connects only to a URL that a CONF packet gave |
| ImapAppend.TextStoredEmpty | components/imap/src/imap.rs:500-505 | a run in which a text packet is acknowledged and stored as an empty body, and the component may finish |
| ImapAppend.AppendNode.WorkerTurn | components/imap/src/imap.rs:490-529 | one turn of the worker's loop is the protocol's worker step: the answer to each command, and what the server is sent, said outright |
| ImapAppend.AppendNode.SendPending | components/imap/src/imap.rs:156-168 | sends from the front until the queue or the budget is empty or the worker is gone, one budget unit each |
| ImapAppend.AppendNode.Process | components/imap/src/imap.rs:94-192 | a call is a run of the protocol, with worker and producer acting meanwhile; the first CONF packet is passed on with its URL; its report counts its steps; when it finishes, why; what it leaves pending and signals; the end of input leaves IN empty unless the call began exposed |
| ImapAppend.AppendNode.LosingCall | components/imap/src/imap.rs:149-178 | from every exposed state some surroundings make a call finish with their packet left in IN |
| ImapFetch.OnePollAtATime | components/imap/src/imap.rs:414-424 | while active, polls queued, handled or answered but unread number one iff the flag is set, else none |
| ImapFetch.NoPollBeforeConnect | components/imap/src/imap.rs:575-603 | the worker handles a poll only in a session, and some earlier step of the run is the server's yes to a connect |
| ImapFetch.MailInOrder | components/imap/src/imap.rs:347-390 | on every run from the start OUT, then pending, then the unread batches are all the mail the server handed over in the steps of the run, in order: unseen mail at a connect, a batch at a poll |
| ImapFetch.FetchFate | components/imap/src/imap.rs:347-424 | a component has ended, or has a failure to read, iff it was stopped, its configuration was rejected or the server failed a connect or a poll; otherwise, with nothing on its way, it waits for a configuration or is active and can ask for the next poll |
| ImapFetch.DialsAsConfigured | components/imap/src/imap.rs:393-412 | the worker connects only to a URL that a CONF packet gave |
| ImapFetch.FetchNode.WorkerTurn | components/imap/src/imap.rs:545-622 | one send of the worker's loop is the protocol's worker step, with the answer to each command and reaction said outright; a connect with unseen mail takes two |
| ImapFetch.FetchNode.Process | components/imap/src/imap.rs:327-437 | a call is a run of the protocol, with the worker acting and room appearing on OUT meanwhile; the first CONF packet is passed on with its URL or rejected; it forwards until nothing is pending, the budget is used or all room on OUT is, and leaves one poll out while active |
| ImapNetwork.AppendKeepsContract | components/imap/src/imap.rs:114-192 | with the result channel as an inbox, a call of Append, worker included, is a legal stretch of the network's run: it keeps the contract of quiescence, so at rest no result of an unfinished node is unread |
| ImapNetwork.FetchKeepsContract | components/imap/src/imap.rs:345-437 | the same of Fetch; the signals owed to the node grow by exactly those the worker sends, one for each completed request, a first batch and its `Connected` together |
| ImapNetwork.FirstBatchSettles | components/imap/src/imap.rs:568-621 | a connect that finds mail writes two results with one signal, and once that is delivered nothing is owed |
| Wiring.ScanLibrary | src/runtime.rs:911-929 | finds whether some component of that name declares the port, and not as an array port |
| Wiring.CheckArrayPorts | src/runtime.rs:894-982 | the one-pass check accepts iff no pair of edges clashes on a port declared plain or on an unknown process; otherwise it reports the first clash |
| Wiring.AcceptedMeans | src/runtime.rs:894-982 | a check accepts iff every port that two edges share, initial packets aside, belongs to a node whose component does not declare it plain |
| Wiring.GroupIips | src/runtime.rs:984-992 | the map holds, for every target with initial packets, exactly those, in graph order |
| Wiring.IipsAreTheGraphs | src/runtime.rs:984-992 | the packets listed for a target are the graph's edges with data and that target, each once and in their order |
| Wiring.WireEdges | src/runtime.rs:1044-1110 | one channel per edge that is no initial packet; fails iff some edge names an unknown process or has more initial packets than slots |
| Wiring.WireLeftovers | src/runtime.rs:1136-1150 | a channel of its own for each packet of every target without an edge, in whatever order the map lists the targets |
| Wiring.WirePorts | src/runtime.rs:1152-1218 | a channel for each public port of the graph, with a waker for the inner node only on the way in |
| Wiring.PortChannels | src/runtime.rs:1152-1218 | an inport's channel leads from its public name at `<graph>-IN` to the inner port in upper case and wakes the inner node; an outport's leads from there to its public name at `<graph>-OUT` and wakes nobody |
| Wiring.IipsLandOnce | src/runtime.rs:1081-1150 | what the channels deliver to a target is the graph's list of initial packets for it, each once, in order |
| Wiring.ChannelsOfEdges | src/runtime.rs:1044-1110 | edge k has channel k, from its source to its target, waking the target; the first into a target carries its initial packets ahead of any data, later ones none |
| Wiring.SpellingDecides | src/runtime.rs:1063-1150 | the initial packets for a runtime port all ride on the channels of edges iff each has an edge that spells its target the same way; that an edge reaches the port is not enough |
| Wiring.OwnChannels | src/runtime.rs:1136-1150 | the packets for a target that no edge spells the same way get a one-slot channel without a producer each, in graph order |
| Wiring.SpellingExample | src/runtime.rs:1063-1088 | `in` and `IN` are one runtime port, but the packet gets a channel of its own |
| Wiring.OneOwner | src/runtime.rs:1061-1109 | in a sound table every channel is held once by one consumer, and once by one producer iff it has one |
| Wiring.Construct | src/runtime.rs:894-1218 | succeeds iff both port checks accept and the graph is consistent; then the table owns both ends of every channel and every initial packet has landed |
| Wiring.ConsistentMeans | src/runtime.rs:1017-1218 | a graph is consistent iff the two made-up names are free, every edge, packet and port ends at a node or made-up process, every edge begins at one, and no target of an edge has more than 2401 initial packets |
| Startup.RegistrationStructured | src/runtime.rs:1336-1363 | whatever the order of registration and early signals, it ends in the structural invariant with all counters zero |
| Startup.SetupGives | src/runtime.rs:1336-1363 | a node starts with the budget class of its last registration, zero counters, no request and no stamp, and with the component installed last |
| Startup.LaunchedInitial | src/runtime.rs:1366-1369 | after the initial signalling every node, and nothing else, is queued: the state all theorems start from |
| Startup.WakersNameReaders | src/runtime.rs:1071-1079 | every channel that can be written by a node or from outside wakes the node that reads it |
| Startup.LaunchedQuiescence | src/runtime.rs:1044-1369 | quiescence from the graph description on: any construction, any set-up with any writes from outside meanwhile, any run; at rest every drained channel is empty, packets preloaded or written early included |
| Graph.Graph.AddNode | src/graph.rs:407-455 | adds under a new name; wrong graph and taken names are refused and change nothing |
| Graph.Graph.RemoveNode | src/graph.rs:457-504 | drops the node and its edges and reports exactly those, in order; errors change nothing |
| Graph.Graph.RenameNode | src/graph.rs:506-555 | the in-place loop is the renaming on values; the three errors and their order |
| Graph.Graph.AddEdge | src/graph.rs:604-621 | appends the edge to the addressed graph and changes nothing otherwise |
| Graph.Graph.RemoveEdge | src/graph.rs:623-648 | removes the first edge with these ends, or reports that there is none and changes nothing |
| Graph.Graph.AddInitialIp | src/graph.rs:679-691 | appends the packet as an edge without a source, with no data if it is empty |
| Graph.Graph.RemoveInitialIp | src/graph.rs:693-725 | removes the first matching packet and returns its data; without data any packet for the target matches |
| Graph.RenameSubstitutes | src/graph.rs:530-546 | renaming is the substitution on names: no node lost, merged or changed |
| Graph.RenameUndone | src/graph.rs:506-555 | the reverse rename restores the graph iff no edge already mentioned the new name |
| Graph.ClosedMentions | src/graph.rs:506-555 | in a closed graph no edge mentions an unused, non-empty name: there the reverse rename always restores |
| Graph.RenameThenRemove | src/graph.rs:457-555 | rename then remove the new name equals remove the old one, iff every edge already mentioning the new name touched the old node |
| Graph.DanglingEdgeCaptured | src/graph.rs:530-546 | a graph with an edge to an absent node on which neither of the two laws holds |
| Graph.MakeDangling | src/graph.rs:604-621 | the edits that the editor accepts lead to that graph |
| Graph.RenameClosed | src/graph.rs:506-555 | renaming keeps a closed graph closed |
| Graph.RemovePartitions | src/graph.rs:472-492 | removal splits the edges into kept and reported, each in its old order, none lost or doubled |
| Graph.RemoveClosed | src/graph.rs:457-504 | removal leaves no dangling edge |
| Graph.AddThenRemove | src/graph.rs:679-725 | a packet with data, once added, is found; removal restores the edges if there was none like it, and the packets as a multiset in any case |
| Graph.EmptyPacketStays | src/graph.rs:911-915 | an empty packet is never found again |
| Deployment.ClosedDeploys | src/runtime.rs:1044-1150 | a closed graph without ports of its own can be built iff no empty initial packet was added and no port an edge leads to has more initial packets than slots |
| Deployment.EmptyPacketBlocks | src/graph.rs:679-691 | after an empty initial packet is added the construction never succeeds |
| Deployment.RenameDeploys | src/graph.rs:530-546 | renaming a node to an unused name leaves a closed graph as buildable as it was |

## Left out

- Threads, the lock and the condition variable: critical sections are atomic steps, `notify` and waiting are not modelled, so nothing is said about when `run` wakes up or that it returns after `stop`.
- The binary heap: a multiset whose greatest entry is popped; the array layout is the standard library's.
- The shared ready flag: contexts are values and the flag lives in the scheduler's map only, which also is where the code's other holder of the flag writes.
- `time_since_last_execution`, `metrics_snapshot` and the optional 10 ms assertion on a call: they feed no decision.
- The 64-bit counters are unbounded naturals; the 32-bit budget is not (see Delay).
- A deadline for a node that is checked out: `wake_at` returns false and drops it, as modelled; timer theorems are about accepted armings.
- `Fairness.MetricsAgree`: for components that leave the counters and the class in their context alone; the code does not stop others.
- `Drop.DropReports`, `Delay.DelayComponent.Process`, `Delay.DelayComponent.OverrunningCall` and the `LosingCall` methods of Drop and Delay: for a call with budget, which is the only kind the scheduler makes.
- `ImapAppend.AppendNode.Process`, `ImapFetch.FetchNode.Process`: for a component that has not finished, since the scheduler retires one that has.
- End of stream: dropping a producer signals nobody, so that every node eventually finishes is not a theorem, and neither is progress behind a full output that drains later.
- `parse_delay`, `parse_fetch_config` and URLs: their results are inputs.
- Replies to pings in Delay and the IMAP components; tracing of edges; the TLS and IMAP sessions, whose answers are arbitrary. The mailbox name travels with the session. A packet for IMAP is bytes or text; any other kind of message behaves as text does, and is stored as an empty body.
- Within a call of an IMAP component, CONF packets and signals arrive before the call or after it; for Fetch, room on OUT appears up to the last push. The result channel is unbounded in the code; in `ImapNetwork.AppendKeepsContract` and `ImapNetwork.FetchKeepsContract` it has a capacity that the run does not exceed.
- `DelaySystem.NoStrandedPacket` and the other theorems there: for runs in which nobody but Delay arms its timer; the code offers `wake_at` to others but has no such caller.
- Within a call of Delay, CONF packets arrive before the call or after it.
- The MoveCopy and Delete components repeat the append protocol and are not modelled.
- Components that read only the last channel of a multi-channel port: the theorems are about wiring, not about consumption.
- The check for unconnected ports, component instantiation, boundary threads, the watchdog and `stop` of the runtime.
- Port names outside ASCII; `to_ascii_uppercase` is modelled on characters.
- Graph ports and groups, which `remove_node` and `rename_node` do not touch; `change_node`, `change_edge`, group edits and conversions. Node metadata is one opaque value.
