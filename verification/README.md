# Verified model of atapp's connection, messaging and lifecycle core

atapp is an application framework: an application owns modules, connects to its peers over a bus,
keeps its registration alive in etcd and reads its configuration from several sources. This project
models the parts of it whose correctness is hardest to see by reading, and proves what they keep, for
every input and every run of events.

| file | what it models |
|---|---|
| `Common.dfy` | optional values, text at a position of a longer text, powers of two and decimal numbers |
| `Reachability.dfy` | paths and reachable sets in a directed graph, and the walk that collects them |
| `AtbusTable.dfy` | the table of connection handles of the bus connector as a value: proxy links, readiness spread, removal, and what keeps its invariants |
| `AtbusRoutes.dfy` | surroundings of an event, timers of an entry, and the route that a connect attempt takes |
| `AtbusMachine.dfy` | the connector as a state machine: what each event makes of the whole state, and the invariants of every run |
| `AtbusLaws.dfy` | what each event does to flags, links and clocks, written down without the functions of the machine, and the proof that the machine does that |
| `AtbusOutcomes.dfy` | where connect attempts, timers and lost endpoints end: who is attached, bound, stamped and dialed |
| `AtbusRuns.dfy` | runs from the empty table that end where a reader might not expect |
| `AtbusConnector.dfy` | the connector object; each method is proved to do what the machine says |
| `Backoff.dfy` | the reconnect interval |
| `MessageLog.dfy`, `MessagePath.dfy` | pending queues of endpoints, the index of endpoint wakers, the loopback queue |
| `ConnectionLinks.dfy` | the pointers between handles, connectors and endpoints, and the mutual recursion of close and unbind |
| `ConfExpression.dfy` | the environment expression language of configuration values |
| `EtcdKeepalive.dfy` | keepalive actors and the lease of an etcd cluster |
| `ModuleLifecycle.dfy` | start, roll-back, stop and clean-up of modules |
| `JsonDom.dfy` | messages to JSON values and back |
| `KeyRange.dfy`, `AppIdMask.dfy`, `FlagWord.dfy` | etcd prefix ranges, dotted application ids, the atomic flag word |

Objects that change in place are classes whose methods state the new state; what is promised about
that state is an invariant that every method keeps, and a `Step`/`Run` pair carries it over every
sequence of events. What comes from outside (clock, topology, endpoint availability, answers of
connectors, modules and HTTP requests) is a parameter of the event. History that the program does not
store (what was delivered, which bindings were closed, which module calls were made) is recorded beside
the state so that laws about whole runs can be stated.

What an operation does is stated apart from the functions that compute it: for the connector by the relation
`AtbusLaws.Obeys`, for the other machines by the predicates `Does` and the lemmas about single events, all in terms
of fields before and after. A body that takes a wrong branch no longer satisfies them.

Some laws a reader might expect are false of the code. They are stated with their exact condition:

* A due reconnect is not made. A timer, like the loss of an endpoint, schedules the next try before it makes this one,
  and the attempt then finds a try scheduled for later and leaves it at that; so neither ever starts a connection
  (`AtbusOutcomes.TimerNeverDials`, `AtbusOutcomes.EndpointLossNeverDials`), and `AtbusRuns.DueTryIsOnlyCounted` is a run in
  which a connect attempt would start one and the firing does not. `AtbusOutcomes.ConnectDials` says exactly when a connect
  attempt does, and `AtbusOutcomes.WhoDials` which events can.
* Removing a handle removes everything below it if and only if each of those entries either has no
  application handle or one that carries its bus id (`AtbusTable.RemovesAllBelow`). A handle is stamped with its bus id if and
  only if the entry is made for it (`AtbusOutcomes.FollowStamps`), and `AtbusRuns.UnstampedChildSurvives` is a run in which an
  unstamped one outlives its proxy.
* A target reached over a next hop takes its readiness from the hop's endpoint and not from the hop's entry
  (`AtbusOutcomes.ReadyAheadOfHop`).
* A `+1` range asks for exactly the keys with the given prefix if and only if some byte of the key is not
  0xff (`KeyRange.PlusOneMeansPrefix`): the range end for the other keys, written as a string literal
  holding one NUL, is an empty string.
* A keepalive that waited for a retry has nothing in flight and is queued nowhere after the retry pass if and only if it was
  idle and its check had failed, no request could be made, or its request failed to start: the list is cleared after the
  pass, whatever was put on it meanwhile (`EtcdKeepalive.DroppedByRetry`). `EtcdKeepalive.ForgottenRun` is a run that ends so.
* Cancelling pending messages leaves them in the queue when there is no ready connector, so removing such
  an endpoint drops them unreported (`MessagePath.App.RemoveEndpoint`).
* A handle that has been closed stays bound if it was closing already, and one that moved from one connector to another is
  (`ConnectionLinks.CloseUnbinds`, `ConnectionLinks.MovedIsNotClosed`).
* A message survives the way to JSON and back if and only if it holds, at any depth, no enum number that its enum does not
  know, other than 0 in a map entry, and no map with bool keys but one whose one key is false (`JsonDom.RoundTrip`, with
  `JsonDom.LostOnTheWay` for messages that do not).
* All expressions nested at most n deep expand to their values if and only if n is at most 32
  (`ConfExpression.DepthLimitIsTight`, with `ConfExpression.TooDeepIsRaw` for one of depth 33).
* When only the pid file cannot be written, start-up fails but the modules stay started
  (`ModuleLifecycle.Application.StartUp`).

## Model

| member | source | states |
|---|---|---|
| AtbusTable.LinkedMeansAgreement | src/atframe/connectors/atapp_connector_atbus.cpp:1680-1739 | the table invariant means: an entry names p as its proxy exactly when p is in the table and lists it; nobody lists itself |
| AtbusMachine.EveryRun | src/atframe/connectors/atapp_connector_atbus.cpp:207-1739 | after every run of connect, close, send-failure, endpoint, topology, discovery and timer events, in any order and against any surroundings: links agree both ways, application handles are held once, lost entries have an armed timer no later than their deadline, and a fixed positive try limit is never exceeded |
| AtbusMachine.NextKeeps | src/atframe/connectors/atapp_connector_atbus.cpp:207-1137 | each event keeps the invariants, respects the try limit, and does not move the lost-topology deadline of an entry that stays lost |
| AtbusLaws.NextObeys | src/atframe/connectors/atapp_connector_atbus.cpp:207-1137 | what each event makes of flags, links, clocks, stamps, cached answer and started connections, entry by entry, in terms of the entries before it alone |
| AtbusLaws.RunObeys | src/atframe/connectors/atapp_connector_atbus.cpp:207-1739 | and so each step of every run |
| AtbusLaws.SpreadMeans | src/atframe/connectors/atapp_connector_atbus.cpp:863-944 | when an entry becomes ready or unready, exactly those change with it that had the other flag and hang on one that changes; who becomes ready starts over with its tries and keeps its timer only while lost |
| AtbusLaws.SweptMeans | src/atframe/connectors/atapp_connector_atbus.cpp:1638-1678 | when an entry is removed, exactly those go with it that hang on one that goes and hold no handle or one stamped with their id; a survivor loses its links to them, and its readiness exactly if it hangs on another one than the removed that was ready and goes or loses its own |
| AtbusLaws.RouteMeans | src/atframe/connectors/atapp_connector_atbus.cpp:1194-1636 | the route taken is the one that is described: none for this node and whoever has an endpoint, the nearest usable hop where direct connections are allowed, else the next hop of the topology or the own upstream, or the refusal with its code |
| AtbusLaws.RouteIsUnique | src/atframe/connectors/atapp_connector_atbus.cpp:1194-1636 | and there is only one that fits the description |
| AtbusLaws.FollowMeans | src/atframe/connectors/atapp_connector_atbus.cpp:1266-1636 | following a route makes missing entries, hangs the target on its hop, spreads readiness, and counts, starts or gives up the try of the hop, each as described entry by entry |
| AtbusLaws.AgainMeans | src/atframe/connectors/atapp_connector_atbus.cpp:1139-1192 | another attempt at a target does nothing for one that is ready, lost, proxied, waiting or up or down the tree, waits without discovery data, takes over the readiness of an endpoint, and starts a connection only with an address, permission and a try that is due |
| AtbusLaws.PeerMoved | src/atframe/connectors/atapp_connector_atbus.cpp:348-496 | a peer that the topology moves off its path is ready and unproxied if its endpoint is available, gone if nothing needs it, proxied by its new upstream and as ready as that if that has an entry, and else, without discovery data, unready, unproxied and waiting |
| AtbusLaws.DroppedMeans | src/atframe/connectors/atapp_connector_atbus.cpp:689-754 | what losing an endpoint does, entry by entry |
| AtbusLaws.TickedMeans | src/atframe/connectors/atapp_connector_atbus.cpp:968-1068 | what a firing does, entry by entry: which entry goes, when its timer is armed for, what is counted |
| AtbusConnector.Connector.Step | src/atframe/connectors/atapp_connector_atbus.cpp:207-1137 | each event makes of table, stamps, cached answer and started connections exactly what the state machine says, and so what `AtbusLaws.Obeys` says of the entries |
| AtbusConnector.Connector.Run | src/atframe/connectors/atapp_connector_atbus.cpp:207-1739 | a run of the connector is a run of the state machine, so that what is proved of every run of the machine holds of it |
| AtbusConnector.Connector.SetHandleReady | src/atframe/connectors/atapp_connector_atbus.cpp:863-910 | terminates on every link graph; makes ready exactly the entries reachable from its argument through entries not yet ready, resets their retry state and drops timers not needed for a lost topology; everything else unchanged |
| AtbusConnector.Connector.SetHandleUnready | src/atframe/connectors/atapp_connector_atbus.cpp:912-944 | terminates on every link graph; makes unready exactly the entries reachable through ready ones; everything else unchanged |
| AtbusConnector.Connector.RemoveConnectionHandle | src/atframe/connectors/atapp_connector_atbus.cpp:1638-1678 | terminates on every link graph, cycles included; removes exactly what is reachable along proxy_for links to entries that can be closed; a survivor loses its links into what left, and its readiness exactly if one of those that left below the removed entry reaches it through ready entries other than that one |
| AtbusTable.DeeperDimmed | src/atframe/connectors/atapp_connector_atbus.cpp:1638-1678 | readiness lost while one child after the other leaves, each with all below it, is what all that left pass on together, whatever the order |
| AtbusTable.OnlyBelowDimmed | src/atframe/connectors/atapp_connector_atbus.cpp:1638-1678 | a removal never makes anything ready, and makes unready only what hangs below the removed entry |
| AtbusTable.KeptChildStaysReady | src/atframe/connectors/atapp_connector_atbus.cpp:1638-1678 | a child that is not removed with its proxy because its handle carries another id keeps its readiness |
| AtbusConnector.Connector.OnCloseConnection | src/atframe/connectors/atapp_connector_atbus.cpp:232-243 | closing an application handle spreads unreadiness from, and then removes, the entry that it is stamped with, if that entry holds it; else nothing happens |
| AtbusTable.RemovalKeepsGood | src/atframe/connectors/atapp_connector_atbus.cpp:1638-1739 | removal keeps two-way agreement, unique application handles, lost timers and the try limit among all survivors |
| AtbusTable.RemovesAllBelow | src/atframe/connectors/atapp_connector_atbus.cpp:1638-1678 | removal takes out exactly the entry and all it reaches down the proxy_for links, if and only if every entry so reached can be closed through its application handle |
| AtbusRuns.UnstampedChildSurvives | src/atframe/connectors/atapp_connector_atbus.cpp:601-607 | a run in which a handle is attached to an entry that was made as somebody's hop, and that entry outlives the removal of its own proxy |
| AtbusRuns.LinksCanCycle | src/atframe/connectors/atapp_connector_atbus.cpp:454-467 | a run of connects and topology updates after which two entries proxy each other |
| AtbusTable.UnproxiedSurvives | src/atframe/connectors/atapp_connector_atbus.cpp:1638-1678 | an entry that nobody proxies is never swept away by removing another |
| AtbusTable.BoundLinked | src/atframe/connectors/atapp_connector_atbus.cpp:1680-1701 | binding to a proxy keeps links in two-way agreement, whatever the old proxy was |
| AtbusConnector.Connector.UnbindProxy | src/atframe/connectors/atapp_connector_atbus.cpp:1703-1739 | clears both ends of a link, and disconnects a proxy that is left idle, inactive and connected and is not the upstream |
| AtbusConnector.Connector.BindConnectionHandleProxy | src/atframe/connectors/atapp_connector_atbus.cpp:1680-1701 | the entry leaves its old proxy, which is disconnected if that leaves it idle, and joins the new one; binding to itself or to the same proxy does nothing |
| AtbusConnector.Connector.MutableConnectionHandle | src/atframe/connectors/atapp_connector_atbus.cpp:600-633 | creates a missing entry, lost at once when the topology does not know it; only a newly created entry stamps its application handle |
| AtbusConnector.Connector.UpdateTimer | src/atframe/connectors/atapp_connector_atbus.cpp:968-1068 | a pending timer due no later is kept, any other is replaced |
| AtbusConnector.Connector.SetHandleLostTopology | src/atframe/connectors/atapp_connector_atbus.cpp:778-799 | sets the flag, the deadline and a timer for it once; an entry already lost is unchanged |
| AtbusConnector.Connector.SetupReconnectTimer | src/atframe/connectors/atapp_connector_atbus.cpp:1086-1137 | counts a try and schedules it after the back-off, never later than the given time; at the try limit it removes the entry instead |
| AtbusRoutes.FirstHopIsNearest | src/atframe/connectors/atapp_connector_atbus.cpp:1322-1523 | of the peers on the way to a target the nearest usable one is taken, and none only when none is usable |
| AtbusOutcomes.FollowEntries | src/atframe/connectors/atapp_connector_atbus.cpp:1266-1636 | following a route puts the target at its hop, holding the handle it was asked for, and leaves every other entry its handle, its proxy and its flags, but for the hop's waiting flag; the one exception is a hop that has no try left |
| AtbusOutcomes.FollowLands | src/atframe/connectors/atapp_connector_atbus.cpp:1266-1636 | this node is ready at once; the upstream and whoever has an endpoint are ready exactly when available; a target reached directly has the readiness of its hop's entry, a forwarded one that of its hop's endpoint |
| AtbusOutcomes.LapsedHopGoes | src/atframe/connectors/atapp_connector_atbus.cpp:1502-1512 | a hop that is asked for one try more than it has is removed, after the target was attached to it, with whatever hangs on it and can be closed |
| AtbusOutcomes.FollowStamps | src/atframe/connectors/atapp_connector_atbus.cpp:600-633 | an application handle is stamped if and only if following the route creates the target's entry for it: not for an entry that is there, nor for one just made as the first hop towards itself |
| AtbusOutcomes.ReadyAheadOfHop | src/atframe/connectors/atapp_connector_atbus.cpp:1542-1552 | over a hop that nobody proxies, a forwarded target is ready while the hop's entry is not if and only if the hop's endpoint is available and its entry was not ready |
| AtbusOutcomes.ConnectDials | src/atframe/connectors/atapp_connector_atbus.cpp:1434-1522 | a connect attempt starts a connection to p if and only if its route leads through p, p has no endpoint but discovery data with an address, and p's entry, if there is one, has a try due and left; it starts no other |
| AtbusOutcomes.TimerNeverDials | src/atframe/connectors/atapp_connector_atbus.cpp:968-1068 | no firing of a timer starts a connection, whatever the state and the surroundings |
| AtbusOutcomes.EndpointLossNeverDials | src/atframe/connectors/atapp_connector_atbus.cpp:689-754 | no loss of an endpoint starts a connection |
| AtbusOutcomes.WhoDials | src/atframe/connectors/atapp_connector_atbus.cpp:207-1137 | only connect requests, topology updates and new discovery data ever start a connection |
| AtbusRuns.DueTryIsOnlyCounted | src/atframe/connectors/atapp_connector_atbus.cpp:1034-1051 | a run in which a timer fires while a try is due and left and a connect attempt would start a connection: the try is counted, and no connection started |
| AtbusOutcomes.FiringRemoves | src/atframe/connectors/atapp_connector_atbus.cpp:1014-1050 | a firing at or after the lost-topology deadline removes the entry, however early earlier firings came, and so does a due try at the try limit |
| AtbusConnector.Connector.ConnectToPeer | src/atframe/connectors/atapp_connector_atbus.cpp:1322-1523 | answers the code of the direct route and follows it, or leaves everything alone when refused |
| AtbusConnector.Connector.ConnectToConnectedEndpoint | src/atframe/connectors/atapp_connector_atbus.cpp:1266-1319 | answers and follows the route for this node, its upstream and whoever has an endpoint |
| AtbusConnector.Connector.ConnectForwarded | src/atframe/connectors/atapp_connector_atbus.cpp:1525-1636 | answers and follows the route over the next hop of the topology or the own upstream |
| AtbusConnector.Connector.TryConnectTo | src/atframe/connectors/atapp_connector_atbus.cpp:1194-1264 | answers the code of, and follows, the one route that the relation, the policy and the endpoints select |
| AtbusConnector.Connector.TryDirectReconnect | src/atframe/connectors/atapp_connector_atbus.cpp:1139-1192 | skips ready, lost, proxied, waiting and vertical entries, waits for missing discovery data, and else follows the direct route |
| AtbusMachine.AgainKeeps | src/atframe/connectors/atapp_connector_atbus.cpp:1139-1192 | another attempt at the target itself never adds a proxy link, whatever it does, and keeps every invariant |
| AtbusRoutes.DirectRouteAddsNoLink | src/atframe/connectors/atapp_connector_atbus.cpp:1194-1264 | without permission to use proxies, and off the vertical axis, no route adds a link |
| AtbusConnector.Connector.OnStartConnect | src/atframe/connectors/atapp_connector_atbus.cpp:207-230 | follows the route and marks the stamped entry active; a repeated request for the same target and handle repeats the cached answer and changes nothing |
| AtbusConnector.Connector.OnSendFailed | src/atframe/connectors/atapp_connector_atbus.cpp:245-277 | losing the connection on send makes unready exactly what hangs on the stamped entry |
| AtbusConnector.Connector.OnUpdateEndpoint | src/atframe/connectors/atapp_connector_atbus.cpp:654-683 | a usable endpoint spreads readiness from its entry; an error or an unavailable endpoint changes nothing |
| AtbusConnector.Connector.OnRemoveEndpoint | src/atframe/connectors/atapp_connector_atbus.cpp:689-754 | an entry that nothing needs any more is removed; a kept one has a try counted and scheduled, or is removed at the try limit, and a neighbour or remote peer is then attempted, or removed when policy forbids it; ready flags are not cleared |
| AtbusMachine.DroppedKeeps | src/atframe/connectors/atapp_connector_atbus.cpp:689-754 | losing an endpoint adds no link and keeps every invariant |
| AtbusConnector.Connector.RemoveTopologyPeer | src/atframe/connectors/atapp_connector_atbus.cpp:330-346 | exactly this entry becomes lost; the connect cache is dropped |
| AtbusConnector.Connector.UpdateTopologyPeer | src/atframe/connectors/atapp_connector_atbus.cpp:348-496 | the entry is not lost any more; with the same upstream it is attempted again; while its proxy is still on its way up nothing else changes; else it leaves that proxy, taking along what was reached through it when the entry is this node, and is made ready when its endpoint is available, removed when nothing needs it, bound to the entry of its new upstream with that entry's readiness, or connected anew |
| AtbusMachine.PlacedSteps | src/atframe/connectors/atapp_connector_atbus.cpp:348-496 | a topology update keeps every invariant, although links may then form cycles, and moves no deadline of an entry that stays lost |
| AtbusConnector.Connector.OnDiscoveryPut | src/atframe/connectors/atapp_connector_atbus.cpp:312-328 | an entry that waited for discovery data stops waiting and is attempted; any other is left alone |
| AtbusConnector.Connector.OnDiscoveryDelete | src/atframe/connectors/atapp_connector_atbus.cpp:801-840 | an entry with neither a proxy nor an endpoint, off the vertical axis, waits for discovery data; nothing else changes |
| AtbusConnector.Connector.OnTimer | src/atframe/connectors/atapp_connector_atbus.cpp:968-1068 | past the deadline, or out of tries when one is due, the entry is removed; a due try is counted and scheduled and then attempted; else the timer is armed for whichever comes first, deadline or next try; a timer of a replaced entry does nothing |
| AtbusMachine.TickedKeeps | src/atframe/connectors/atapp_connector_atbus.cpp:968-1068 | no firing adds a link or breaks an invariant |
| Backoff.Compute | src/atframe/connectors/atapp_connector_atbus.cpp:1086-1137 | the loop yields start for no earlier try and else min(start * 2^n, max), and no value on the way exceeds twice the larger of start and max |
| Backoff.IntervalGrows | src/atframe/connectors/atapp_connector_atbus.cpp:1086-1137 | intervals never shrink with more tries and stay within max |
| MessageLog.ExactlyOne | src/atframe/connectors/atapp_endpoint.cpp:142-327 | every message pushed to an endpoint is reported failed, handed on or queued, and never two of these |
| MessageLog.KeptFail | src/atframe/connectors/atapp_endpoint.cpp:254-327 | reporting one message failed takes exactly that message out of the order of the others |
| MessageLog.KeptInOrder | src/atframe/connectors/atapp_endpoint.cpp:142-327 | the messages not reported failed stay in push order |
| MessagePath.NoneLostNoneDoubled | src/atframe/connectors/atapp_connector_loopback.cpp:66-212 | on the application's own endpoint every message is exactly one of delivered, in the loopback queue, in the endpoint's queue and failed, and those not failed appear in push order across these places |
| MessagePath.EveryEndpointAccounted | src/atframe/connectors/atapp_endpoint.cpp:63-81 | for every endpoint ever made, also one that is gone, each message is exactly one of reported failed, handed on and queued, or left in the queue that was dropped unreported; what loopback took over of it is delivered or on its way |
| MessagePath.App.PushForwardMessage | src/atframe/connectors/atapp_endpoint.cpp:142-252 | a message is sent at once only when nothing is waiting and a handle is ready, else waits at the back, or is refused and reported, with the code of whoever refused it; a connection error falls back to waiting; empty data does nothing; exactly one of queue, sent and failed gains the message, and the byte counters its size |
| MessagePath.App.RetryPendingMessages | src/atframe/connectors/atapp_endpoint.cpp:254-327 | a ready endpoint offers exactly up to the given number of messages from the front, each leaving as its connector answered, and with loopback exactly as its queue has room after those before; another one reports exactly the leading expired ones; what stays is woken for |
| MessagePath.OfferedMeans | src/atframe/connectors/atapp_endpoint.cpp:254-327 | of the messages that are offered those are handed on that their connector takes, and the others reported failed |
| MessagePath.OfferedOnly | src/atframe/connectors/atapp_endpoint.cpp:254-327 | nothing else is handed on or reported |
| MessagePath.LoopedMeans | src/atframe/connectors/atapp_endpoint.cpp:254-327 | offered to loopback, each is handed on or reported failed, the first one handed on exactly if the loopback queue has room for it |
| MessagePath.AttendedStays | src/atframe/atapp.cpp:3189-3211 | an endpoint that was attended to stays so, whatever follows: what was handed on or reported remains so, and who is gone remains gone |
| MessagePath.App.CancelPendingMessages | src/atframe/connectors/atapp_endpoint.cpp:355-393 | with a ready connector the whole queue is reported failed and the byte counter is 0; without one nothing changes |
| MessagePath.App.AddWaker | src/atframe/atapp.cpp:2373-2388 | the index keeps one entry at the earliest time per endpoint that has a waker, and none for one that has not; nothing is added while closing |
| MessagePath.App.WakeEarliest | src/atframe/atapp.cpp:3189-3211 | with no waker due nothing happens; else the earliest one leaves the index, its endpoint is retried if it still exists and dropped if it has had no handle for long enough, and index, queues and deadlines agree again |
| MessagePath.App.Recycle | src/atframe/atapp.cpp:3202-3209 | exactly an endpoint without handles whose time has come is dropped |
| MessagePath.App.RemoveEndpoint | src/atframe/connectors/atapp_endpoint.cpp:63-81 | the endpoint is gone and everybody else is as before; its queue was reported failed if a connector was ready and is dropped unreported, and kept in the history, if not |
| MessagePath.App.CreateEndpoint | src/atframe/atapp.cpp:2472-2539 | a new endpoint has an empty queue and a waker on the next tick; none is made while closing |
| MessagePath.App.BindHandle | src/atframe/connectors/atapp_connector_impl.cpp:82-100 | a ready handle wakes its endpoint no later than the next tick |
| MessagePath.App.UnbindHandle | src/atframe/connectors/atapp_connector_impl.cpp:52-80 | the last handle to leave starts the endpoint's grace period and wakes it at its end |
| MessagePath.App.SetReady | src/atframe/connectors/atapp_connector_impl.cpp:148-163 | becoming ready wakes the endpoint no later than the next tick |
| MessagePath.App.SetUnready | src/atframe/connectors/atapp_connector_impl.cpp:165-178 | the waker that is asked for is never needed: the endpoint already has one early enough |
| MessagePath.App.LoopbackSend | src/atframe/connectors/atapp_connector_loopback.cpp:66-111 | a message is taken over exactly if count and bytes stay within the limits |
| MessagePath.App.DeliverFront | src/atframe/connectors/atapp_connector_loopback.cpp:164-203 | the oldest message is delivered; pushes from within its callback queue up behind the rest |
| MessagePath.App.LoopbackProcess | src/atframe/connectors/atapp_connector_loopback.cpp:149-212 | deliveries only ever extend the history, their number is returned, and there are none exactly when nothing was queued |
| MessagePath.App.ProcessInternalEvents | src/atframe/atapp.cpp:3182-3226 | if a waker is due, the endpoint of an earliest one is attended to: gone if it has had no handle for long enough, else its messages, if ready, are each handed on or reported as their connector answers, and its expired ones reported if not; what was at the front of the loopback queue is delivered; only idle endpoints are dropped, no history is rewritten, and index, deadlines and accounting are kept |
| MessagePath.App.Step | src/atframe/atapp.cpp:3182-3226 | what each event does to queues, links, history and clock, in terms of the state before it |
| MessagePath.App.Run | src/atframe/atapp.cpp:3182-3226 | in every run each event does what it should; after it each live endpoint has exactly its waker in the index, one with pending messages is woken no later than its first one expires while the application is not closing, the accounting of messages and bytes holds for every endpoint ever made, and what was reported or handed on once is never taken back |
| ConnectionLinks.Links.CloseHandle | src/atframe/connectors/atapp_connector_impl.cpp:123-142 | closing terminates; a handle that is closing already is left alone, any other leaves its endpoint and its connector |
| ConnectionLinks.CloseUnbinds | src/atframe/connectors/atapp_connector_impl.cpp:123-142 | closing leaves a handle without a connector if and only if it was not closing already or had none, and the same for its endpoint |
| ConnectionLinks.MovedIsNotClosed | src/atframe/connectors/atapp_connector_impl.cpp:38-50 | a handle that went from one connector to another is closing while bound, so that closing it changes nothing |
| ConnectionLinks.Links.UnbindConnector | src/atframe/connectors/atapp_connector_impl.cpp:17-36 | unbinding closes the handle and notifies a connector that is not being destroyed once |
| ConnectionLinks.Links.UnbindEndpoint | src/atframe/connectors/atapp_connector_impl.cpp:52-80 | unbinding closes the handle as well |
| ConnectionLinks.Links.BindConnector | src/atframe/connectors/atapp_connector_impl.cpp:38-50 | a handle moves to its new connector and closes its old binding; a connector being destroyed takes none |
| ConnectionLinks.MoveAccounts | src/atframe/connectors/atapp_connector_impl.cpp:17-50 | such a move changes no other handle, makes exactly one binding, and reports exactly the old one closed unless its connector is being destroyed |
| ConnectionLinks.Links.BindEndpoint | src/atframe/connectors/atapp_connector_impl.cpp:82-100 | a handle moves to its new endpoint unless that one is closing |
| ConnectionLinks.AttachAccounts | src/atframe/connectors/atapp_connector_impl.cpp:52-100 | such a move changes no other handle and binds nothing; the handle is closed and so loses its connector, unless it was closing already |
| ConnectionLinks.Links.Cleanup | src/atframe/connectors/atapp_connector_impl.cpp:223-234 | exactly the handles of the connector are unbound and closed, those that were not closing leaving their endpoint as well; all other handles, bindings and flags are as they were |
| ConnectionLinks.Links.Reset | src/atframe/connectors/atapp_endpoint.cpp:63-81 | exactly the handles of the endpoint are unbound and closed, those that were not closing leaving their connector as well; all other handles, bindings and flags are as they were |
| ConnectionLinks.ClosedKeeps | src/atframe/connectors/atapp_connector_impl.cpp:123-142 | closing keeps pointers and sets in agreement even while others are being swapped out, and changes no other handle |
| ConnectionLinks.Links.Step | src/atframe/connectors/atapp_connector_impl.cpp:17-234 | what each event does to the pointers and flags of every handle, and which binding it makes; sets and notifications follow from the agreement that it keeps |
| ConnectionLinks.Links.Run | src/atframe/connectors/atapp_connector_impl.cpp:17-234 | in every run of create, bind, unbind, close, ready, destroy, cleanup and reset each event does what it should; pointers and sets agree both ways, and every binding of a connector that is not being destroyed was reported closed exactly once or still stands |
| ConfExpression.FindMatchingCloseBrace | src/atframe/atapp_conf.cpp:912-937 | finds the brace that closes, over nested expressions and escapes, or none |
| ConfExpression.FindTopLevelOperator | src/atframe/atapp_conf.cpp:939-965 | finds the first operator outside nested expressions, or none |
| ConfExpression.ExpandExpressionImpl | src/atframe/atapp_conf.cpp:967-1081 | the expander computes the expansion function about which the laws below are proved |
| ConfExpression.CloseFindsBrace | src/atframe/atapp_conf.cpp:912-937 | in the printed form of a braced expression the scanner finds exactly its own closing brace |
| ConfExpression.TopSkips | src/atframe/atapp_conf.cpp:939-965 | the operator scanner passes over every printed expression without a top-level operator |
| ConfExpression.ExpandIsValue | src/atframe/atapp_conf.cpp:967-1081 | for every expression tree of nesting at most 32, expanding its printed form gives its denotational value |
| ConfExpression.ExpressionsMean | src/atframe/atapp_conf.cpp:967-1081 | letter by letter: a variable is what the environment holds, the word after `:-` stands for one that is unset or empty, the word after `:+` for one that is not |
| ConfExpression.CStringCuts | src/atframe/atapp_conf.cpp:997-1069 | a name reaches the environment up to its first NUL |
| ConfExpression.SubstitutedOnce | src/atframe/atapp_conf.cpp:997-1069 | what is put in for a variable, bare or braced and anywhere in the text, is what the environment holds and is not expanded again |
| ConfExpression.TooDeepIsRaw | src/atframe/atapp_conf.cpp:967-971 | an expression nested 33 deep which, expanded as configuration is, does not give its value |
| ConfExpression.DepthLimitIsTight | src/atframe/atapp_conf.cpp:900-971 | all expressions nested at most n deep expand to their values in every environment if and only if n is at most 32 |
| ConfExpression.EscapeRoundTrip | src/atframe/atapp_conf.cpp:977-990 | writing a backslash before each dollar sign of any string and expanding gives the string back |
| EtcdKeepalive.Cluster.Process | src/atframe/etcdcli/etcd_keepalive.cpp:115-182 | starts a check, or a put of the current value under the current lease, or nothing; a start that fails is remembered for a retry |
| EtcdKeepalive.ProcessedKeepsOk | src/atframe/etcdcli/etcd_keepalive.cpp:115-182 | processing keeps a keepalive up to date or marked as changed, and puts whatever is due |
| EtcdKeepalive.RenewedIsOk | src/atframe/etcdcli/etcd_keepalive.cpp:93-182 | marking a keepalive as changed and processing it makes it right under the lease of that moment, whatever it was like before |
| EtcdKeepalive.AnsweredKeepsOk | src/atframe/etcdcli/etcd_keepalive.cpp:271-302 | whatever a put answers, the keepalive is up to date or marked as changed |
| EtcdKeepalive.Cluster.SetValue | src/atframe/etcdcli/etcd_keepalive.cpp:93-102 | another value is taken and marked as changed, and processed at once while the cluster runs with a lease; the same value changes nothing |
| EtcdKeepalive.Cluster.OnGetDone | src/atframe/etcdcli/etcd_keepalive.cpp:184-269 | a check that passes leads to the put, one that says no to nothing, a failed request to a retry |
| EtcdKeepalive.CheckDecides | src/atframe/etcdcli/etcd_keepalive.cpp:184-269 | a checker that says no leaves the keepalive idle with nothing put and its value waiting; one that says yes puts exactly the waiting value under the lease, if a request can be made and starts; an answer that fails or cannot be read asks for a retry |
| EtcdKeepalive.RefusedIsNotPut | src/atframe/etcdcli/etcd_keepalive.cpp:115-269 | in every run, after a check that said no nothing is put, whatever values, leases and retries come, until the keepalive is closed or its checker taken away |
| EtcdKeepalive.PutSettles | src/atframe/etcdcli/etcd_keepalive.cpp:271-302 | an answered put stores what it carried, and puts a value that waits meanwhile next; a failed one leaves its value waiting and asks for a retry |
| EtcdKeepalive.ValueWaits | src/atframe/etcdcli/etcd_keepalive.cpp:93-102 | another value waits, and is attempted at once while the cluster runs with a lease; nobody else changes |
| EtcdKeepalive.ProcessedMeans | src/atframe/etcdcli/etcd_keepalive.cpp:115-182 | an attempt sends a put exactly if nothing is in flight, a value waits, the check allows it, and a request with a lease can be made and starts, and a check exactly if one is still to be answered; it asks for a retry exactly if something was to be sent and was not |
| EtcdKeepalive.Cluster.OnPutDone | src/atframe/etcdcli/etcd_keepalive.cpp:271-302 | success records what was written; failure marks the value as changed and asks for a retry |
| EtcdKeepalive.Cluster.AddKeepalive | src/atframe/etcdcli/etcd_cluster.cpp:582-614 | registers a keepalive once, and none while closing |
| EtcdKeepalive.Cluster.AddRetryKeepalive | src/atframe/etcdcli/etcd_cluster.cpp:616-637 | enters the retry list once, and not while closing |
| EtcdKeepalive.Cluster.RemoveKeepalive | src/atframe/etcdcli/etcd_cluster.cpp:639-692 | leaves both lists, the last element taking its place, and is closed if it was in one |
| EtcdKeepalive.RegisteringMeans | src/atframe/etcdcli/etcd_cluster.cpp:582-614 | a keepalive joins at the end of the list, once, and is attempted at once while the cluster runs with a lease |
| EtcdKeepalive.UnregisteringMeans | src/atframe/etcdcli/etcd_cluster.cpp:639-692 | a removed keepalive is on neither list, has nothing in flight, no checker and a value that waits; nobody else leaves a list |
| EtcdKeepalive.PoppedMembers | src/atframe/etcdcli/etcd_cluster.cpp:639-672 | putting the last element into the place of the removed one keeps all others, each once |
| EtcdKeepalive.Cluster.RetryPendingActions | src/atframe/etcdcli/etcd_cluster.cpp:889-899 | with a lease every waiting keepalive is renewed and the list is empty afterwards; without one nothing happens |
| EtcdKeepalive.Cluster.SetLease | src/atframe/etcdcli/etcd_cluster.cpp:919-941 | a new lease renews every registered keepalive, then those of them that asked for a retry, and empties the list; the same lease only retries; none does nothing |
| EtcdKeepalive.LeaseMeans | src/atframe/etcdcli/etcd_cluster.cpp:919-941 | a new or granted lease has every registered keepalive attempted under it, once more if that fails, the same one only those that waited for a retry; nobody else changes, and nobody waits afterwards |
| EtcdKeepalive.RetryMeans | src/atframe/etcdcli/etcd_cluster.cpp:889-899 | a retry pass attempts exactly those that wait for it, if there is a lease and a connection, and lets nobody wait |
| EtcdKeepalive.ShutMeans | src/atframe/etcdcli/etcd_cluster.cpp:262-324 | closing takes the lease away, empties both lists and closes exactly whoever was registered |
| EtcdKeepalive.NewLeaseIsWritten | src/atframe/etcdcli/etcd_cluster.cpp:919-941 | when the lease changes, every registered keepalive whose request starts puts its current value under the new lease, or checks first, or is marked to do so when what it has in flight is answered |
| EtcdKeepalive.Cluster.OnLease | src/atframe/etcdcli/etcd_cluster.cpp:1613-1706 | a granted lease is taken over unless it is 0 or the cluster is closing |
| EtcdKeepalive.NextKeepsOk | src/atframe/etcdcli/etcd_keepalive.cpp:93-302 | every event keeps a keepalive right for which no request fails to start and which does not miss a change of the lease |
| EtcdKeepalive.EveryRun | src/atframe/etcdcli/etcd_keepalive.cpp:93-302 | in every run, for every keepalive no request of which failed to start and which was registered whenever the lease changed: if it is not marked as changed, a put of its current value is in flight or the last confirmed put wrote it, under the current lease unless there is none now |
| EtcdKeepalive.DroppedByRetry | src/atframe/etcdcli/etcd_cluster.cpp:889-899 | after a retry pass a keepalive that waited for it has nothing in flight and is queued nowhere if and only if it was idle and its check had failed, no request could be made, or its request failed to start |
| EtcdKeepalive.AskedInVain | src/atframe/etcdcli/etcd_cluster.cpp:889-899 | of these, exactly the ones with a check still to run or passed had asked for another retry |
| EtcdKeepalive.DroppedStays | src/atframe/etcdcli/etcd_cluster.cpp:889-941 | such a keepalive stays as it is through retry passes and renewals of the same lease |
| EtcdKeepalive.ForgottenRun | src/atframe/etcdcli/etcd_cluster.cpp:889-899 | a run that ends with a registered keepalive that is unchanged, idle, queued nowhere and never written |
| EtcdKeepalive.Cluster.Step | src/atframe/etcdcli/etcd_cluster.cpp:582-941 | each event does exactly what the machine of the run theorem says, and keeps registrations and retry list without repetition |
| EtcdKeepalive.Cluster.Run | src/atframe/etcdcli/etcd_keepalive.cpp:93-302 | a run of the cluster is a run of that machine |
| ModuleLifecycle.Application.CheckSuspendStop | src/atframe/atapp_module_impl.cpp:117-138 | a module is waited for exactly if it asks and its deadline, counted from the first check, has not come |
| ModuleLifecycle.Application.StopModules | src/atframe/atapp.cpp:5277-5309 | one round calls stop on exactly the enabled modules that do not wait, in order; each keeps its deadline or sets it at the first check, stays enabled exactly if it waits or answers that it needs more time, and the round reports whether any does |
| ModuleLifecycle.StopCallsExactly | src/atframe/atapp.cpp:3032-3055 | a module is stopped in a round if and only if it is enabled and there is a timeout, or it has no suspension left, or its callback declines, or its deadline has come, counted from the first check; once each, in order, and nothing else is called |
| ModuleLifecycle.TimeoutCallsExactly | src/atframe/atapp.cpp:3023-3031 | the timeout is told to exactly the enabled modules, once each and in order |
| ModuleLifecycle.CleanupsExactly | src/atframe/atapp.cpp:3094-3104 | cleanup is called on every module but the failed one, once each, last one first |
| ModuleLifecycle.StartCallsExactly | src/atframe/atapp.cpp:790-857 | init and ready are called on exactly the enabled modules, once each and in order |
| ModuleLifecycle.Application.CleanupAfterFailedInit | src/atframe/atapp.cpp:5260-5385 | the whole trace of a roll-back: rounds of stopping as long as something remains and no timeout fires, the timeout to whoever is left, the last calls to the failed module, and the clean-up, last one first; every started module below the bound is stopped or timed out, disabled and cleaned up once, the failed one sees only its own calls and no later one any |
| ModuleLifecycle.Application.StartUp | src/atframe/atapp.cpp:783-860 | after an early timeout touches no module; fails exactly if an enabled module fails to start or the timeout fires meanwhile, and then has rolled back what was started up to where it broke off; when only the pid file cannot be written, reports that and leaves every enabled module started; succeeds exactly otherwise, with every enabled module started, in order, and then told that the application is ready |
| ModuleLifecycle.Application.RunInner | src/atframe/atapp.cpp:3019-3118 | while stopping, a round calls stop on exactly the modules that do not wait, or, once the timeout has fired, tells it to every enabled one; the stopped flag is set if and only if every module is then disabled, and then every module is cleaned up once, last one first, and the run is over; no deadline moves |
| ModuleLifecycle.Application.Step | src/atframe/atapp.cpp:783-860 | what each event does to modules, calls and flags, in terms of the state before it |
| ModuleLifecycle.Application.Run | src/atframe/atapp.cpp:783-860 | in every run each event does what it should, no module sees a call out of turn since the last start, and no suspension deadline moves |
| ModuleLifecycle.StopsAreRight | src/atframe/atapp.cpp:3032-3055 | stop is only called on modules whose init succeeded, never again once it answered zero or less, and never after cleanup |
| ModuleLifecycle.CleanupIsOnce | src/atframe/atapp.cpp:3094-3104 | cleanup is called at most once |
| ModuleLifecycle.PastDeadline | src/atframe/atapp_module_impl.cpp:117-138 | once its deadline has come, a module still enabled is stopped in the round |
| JsonDom.LoadFrom | src/atframe/atapp_conf_rapidjson.cpp:972-991 | writes the listed fields of a message into an object |
| JsonDom.LoadFieldItem | src/atframe/atapp_conf_rapidjson.cpp:266-538 | writes a single, repeated or map field, with large numbers as text on demand |
| JsonDom.DumpMessage | src/atframe/atapp_conf_rapidjson.cpp:959-970 | reads an object into the fields that its members name |
| JsonDom.DumpPickField | src/atframe/atapp_conf_rapidjson.cpp:556-698 | reads one value as the field's type, numbers also from text on demand |
| JsonDom.DumpFieldItem | src/atframe/atapp_conf_rapidjson.cpp:742-788 | reads a member into a single, repeated or map field; a value of the wrong shape changes nothing |
| JsonDom.DumpFieldItemMap | src/atframe/atapp_conf_rapidjson.cpp:700-740 | adds one entry for each member of an object to a map field, its key read from the member's name |
| JsonDom.EntriesExact | src/atframe/atapp_conf_rapidjson.cpp:413-455 | a map field whose keys are not bools becomes one member per entry, in order: different keys have different names |
| JsonDom.WrittenValue | src/atframe/atapp_conf_rapidjson.cpp:266-538 | a value is written as what it is, but for a number above 31 bits of a kind that can hold one, which becomes its decimal digits on demand |
| JsonDom.MembersExact | src/atframe/atapp_conf_rapidjson.cpp:972-991 | a message becomes an object with exactly one member for each field that has data, under its name, in the order of the field numbers |
| JsonDom.ReadsAs | src/atframe/atapp_conf_rapidjson.cpp:556-698 | a number, or on demand its text, is read as that number if it fits the field and as 0 if not; only truth values, texts and known enum numbers say more than the default to their kinds |
| JsonDom.SlotRead | src/atframe/atapp_conf_rapidjson.cpp:959-970 | reading changes exactly the fields that the object has members for, and of several of the same name the first one counts |
| JsonDom.ShapesRead | src/atframe/atapp_conf_rapidjson.cpp:742-788 | a value of the wrong shape changes nothing; repeated and map fields keep what they have and are added to |
| JsonDom.RoundTrip | src/atframe/atapp_conf_rapidjson.cpp:959-991 | for every message that conforms to its type, with large numbers as text or not: writing it to JSON and reading that into a fresh message gives the message back if and only if, at any depth, it holds no enum number unknown to its enum, other than 0 in a map entry, and no map with bool keys but one whose one key is false |
| JsonDom.BoolKeys | src/atframe/atapp_conf_rapidjson.cpp:198-263 | a map with bool keys comes back if and only if its one key is false and its value does |
| JsonDom.LostOnTheWay | src/atframe/atapp_conf_rapidjson.cpp:676-691 | a message with an unknown enum number, and one with a map from true, that do not come back |
| KeyRange.PackKeyRange | src/atframe/etcdcli/etcd_packer.cpp:211-238 | the loop computes the successor of the key for a `+1` range and passes other ranges on; empty fields are left out |
| KeyRange.SuccessorBoundsPrefix | src/atframe/etcdcli/etcd_packer.cpp:213-224 | for every key with some byte other than 0xff: key <= k < range end in byte order exactly when key is a prefix of k |
| KeyRange.PlusOneMeansPrefix | src/atframe/etcdcli/etcd_packer.cpp:211-238 | a `+1` request asks for exactly the keys with that prefix if and only if some byte of the key is not 0xff |
| AppIdMask.ConvertAppIdByString | src/atframe/atapp.cpp:4425-4452 | reads a plain number, or shifts dotted segments together under the mask |
| AppIdMask.ConvertAppIdToString | src/atframe/atapp.cpp:4464-4492 | prints the segments of an id, decimal or hexadecimal |
| AppIdMask.SplitIdsByString | src/atframe/atapp.cpp:4400-4423 | reads the numbers between dots |
| AppIdMask.IdRoundTrip | src/atframe/atapp.cpp:4425-4492 | printing any id below 2^total, decimal or hexadecimal, and reading it back gives the id, for every non-empty mask with widths at most 63 and total at most 64 |
| AppIdMask.SegmentPlace | src/atframe/atapp.cpp:4464-4492 | a printed segment is the number in the bits that its mask gives it, above those of all later masks |
| AppIdMask.TextPlace | src/atframe/atapp.cpp:4425-4452 | the id that is read has of each number the bits that fit in the bits of its mask, and nothing above them all; surplus numbers are ignored |
| AppIdMask.PlainNumber | src/atframe/atapp.cpp:4425-4452 | text without a dot is read as a plain number, whatever the masks |
| AppIdMask.TextRoundTrip | src/atframe/atapp.cpp:4425-4492 | dotted text with segments in range survives reading and printing |
| FlagWord.EveryRunIsSerial | src/atframe/atapp.cpp:2794-2824 | under every interleaving of concurrent calls, spurious failures included, the word equals applying the logged calls one at a time in compare-and-swap order, each of which returned its bit's value just before |
| FlagWord.BitsOfEveryRun | src/atframe/atapp.cpp:2794-2824 | in every interleaving each bit holds what the last call on it wrote, or what it was at first, and each call returned what the call before it on the same bit had written: no update is lost and no other flag is touched |
| FlagWord.OneBitPerStep | src/atframe/atapp.cpp:2794-2824 | a step changes at most the bit that its logged call is about, to the value that asks for; a step that logs nothing changes nothing, and a call for a flag that does not exist returns false |
| FlagWord.EnterLooks | src/atframe/atapp.cpp:2794-2824 | a call whose flag has the value already returns it at once, any other waits to swap the word that it has read |
| FlagWord.SwapDecides | src/atframe/atapp.cpp:2794-2824 | an attempt takes effect if the word is unchanged, ends if somebody else has done its work, and else looks again |
| FlagWord.AloneItReturns | src/atframe/atapp.cpp:2794-2824 | two attempts in a row without a spurious failure finish a call |
| FlagWord.ReturnIsLogged | src/atframe/atapp.cpp:2794-2824 | a call that returns has exactly one entry in that order, with the value it returned, made by its last step |
| FlagWord.StepKeeps | src/atframe/atapp.cpp:2794-2824 | every single step of any thread keeps the invariant from which this follows |

## Left out

- I/O and foreign calls: libuv, HTTP, YAML and INI reading, log sinks, pid files, signals, command lines.
- libatbus internals (node, endpoints, topology registry, channels): relation, availability, next hop and send results are parameters of each event; `node->disconnect` is an effect whose consequence is a later event.
- Worker pool, discovery sets, watchers and the reflection-driven configuration loaders: they would mostly add easy members.
- Lifetime of raw and shared pointers, and destructors: objects are named by ids that are never reused.
- Callbacks that re-enter the program, except pushes from within the delivery of a loopback message.
- Timer wheels: a timer is a time, and adding one is taken to succeed.
- Etcd authorization, member selection, statistics and the requests that delete the paths of removed keepalives.
- `enable`, `disable` and `add_module` called by user code while the application runs.
- MessagePath.App.UnbindHandle: which of several handles is ready is an input, the handle sets themselves are modelled in `ConnectionLinks`.
- MessagePath.App.ProcessInternalEvents: the clock is given as the number of rounds and batches it allows.
- ModuleLifecycle.Application.CleanupAfterFailedInit: the timeout is taken to fire after the given rounds at the latest; without a timer the program could wait for ever.
- ModuleLifecycle.Application.CheckSuspendStop: the two readings of the clock in one check are taken as one.
- JsonDom.RoundTrip: raw string mode, empty fields skipped and reading numbers from text, which are the defaults; floating-point fields are not modelled.
- JsonDom.DumpPickField: text that is not a decimal number of the field's type is read as 0.
- AppIdMask.SplitIdsByString: numbers wider than 64 bits in the text do not wrap.
- FlagWord.EveryRunIsSerial: the 64-bit word is a sequence of its bits, and memory orders weaker than sequential consistency are not distinguished.
- AtbusConnector.Connector.Step: the order in which a removal asks for disconnects, which follows a hash set, is not stated; `UnbindProxy` and `BindConnectionHandleProxy` say when one is asked for.
- ModuleLifecycle.Application.Run: the log of calls starts anew with each start, so a start after a failed pid file, which starts the modules that are still started once more, is not held against them.
