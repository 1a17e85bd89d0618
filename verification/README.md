# Privacy proxy: a verified model

`native/privacy-proxy` is a transparent TCP proxy. It peeks at the first bytes of
a connection, finds the host name in a TLS ClientHello or an HTTP/1.x request,
applies an ordered first-match rule list, opens a socket towards the destination
that is bound to the exit the rule names, and relays both directions through
pooled pipes under a token bucket shared by every flow of the rule. This project
models that program in Dafny and proves what it is for: that no flow leaves by
another way than its rule says, that bytes are neither lost nor mixed up, that no
flow waits for an event that will not come, and that the parsers accept exactly
what they should. Where the program falls short of what one might hope - a flow can
be starved of its share, for one - it gives a run that shows it and the exact
condition. The server-sent-event splitter of the web front end
(`src/components/chat/sse.ts`) is modelled beside it.

## How it is built

Code that changes state step by step is modelled by methods and classes with the
source's own fields, loops and branches: `TokenBucket`, `PipePool`, `Pump`,
`StatsTable`, `Builder`, `Reader`, `Lines`, `SharedState` and `Worker`. Each method
is proved equal to a function of the state before it (`Relayed`, `Decided`,
`AdmitAt`, `Maintained`, ...), and what the program promises is proved of those
functions, first for one call, then for one worker, then for every run.

| files | what they hold |
|---|---|
| `Basics`, `Text`, `TextTheorems` | splitting and joining, optional values, what number, address and port tokens read as |
| `Hostname`, `Rules`, `Config`, `ConfigTheorems` | names, rules, the configuration file |
| `Prelude`, `Tls`, `TlsTheorems`, `TlsEvidence`, `Http`, `HttpTheorems`, `HttpEvidence`, `Parser` | finding the host name in the first 8 KiB |
| `Throttle`, `Stats` | token bucket, accounting table |
| `Kernel`, `Relay`, `Pass`, `PassTheorems` | sockets and `splice`, one direction, one relay pass |
| `Server`, `Flow`, `Worker` | shared generations, one flow's handlers, the worker |
| `FlowTheorems`, `SiteTheorems`, `World`, `Guarantees` | what handlers, workers and whole runs keep |
| `Progress` | what handlers, workers and reloads get done |
| `Sharing`, `Starvation`, `Witnesses` | flows that share a bucket; runs in which something is missed |
| `Sse` | the event-stream splitter |

The environment is `Kernel` and the record `Env`. A socket has the bytes its peer
has sent and not been asked for, the room it has left, and the edges epoll has yet
to deliver; a script says, before every `splice`, what arrives, whether the call
fails and how much it prefers to move. An edge is raised only when an empty socket
becomes readable or a full one writable, the least that edge triggering promises.
`Worlds.World` holds every worker and everything shared; a step is an accepted
connection, an event for any index and side (live or not, stale or not, consuming
its edge or not), housekeeping in one go or turn by turn, arrivals, a reload of any
text, or an exit sweep of any generation. A state is `Guarantees.Reachable` when it has every property
that a proxy started from some accepted configuration has and that every such step
keeps, which is to say when some run ends in it (`Guarantees.ReachableIsRun`).

Three values are history, kept only to be reasoned about: `Throttle.Account` (what a
bucket has granted, earned and lost), `Server.Generation.pulled` (the bytes relay
passes have read under a rule) and `Flows.Flow.lastRead` (the bytes a flow's last
successful pass read).

## Findings

- A flow can be starved. Every pass takes all its rule's bucket holds
  (`Sharing.DrawTakesAll`), so the next flow of the rule is granted nothing exactly
  when it asks before the bucket has earned another byte (`Sharing.NextGetsNothing`).
  A flow with bytes waiting and room for them reads something exactly when the
  refilled bucket holds a byte (`Sharing.ReadsIffTokens`); one resumed after another
  flow of its rule and before the bucket has earned another byte reads nothing and
  stays as idle as it was (`Sharing.SecondStarves`), for as many rounds as that goes on
  (`Sharing.StarvesThroughout`), and is in the end reaped with bytes waiting
  (`Sharing.StarvedIsReaped`). `Starvation.OneOfTwoStarves` is a run of two minutes
  with a housekeeping every 101 ms in which one flow is given every byte and the other
  none. What a pass is granted and does not read is lost to the rule
  (`Sharing.GrantIsReadOrLost`).
- `stats.rs` documents `other` rows growing from the back of the table, one per
  action. The fold row is only made once 511 named rows exist, which fills the
  table, so at most one can ever exist and `OVERFLOW_SLOTS` is never reached. A
  flow is counted under its own action exactly if its pair has a row, a row can
  still be made, or a row of `other` carries that action (`Stats.LabelIff`);
  `Stats.LabelLost` fills a table where it is counted under another. An entry's
  position always equals its slot.
- A pipe of capacity 0 (`sys.rs:434-440` can produce one) leaves a direction with
  bytes waiting, no timer and no event to come; with any other capacity that cannot
  happen (`PassTheorems.PendingIff`, `Guarantees.NoFlowIsForgotten`).
  `Witnesses.NoEventToCome` is a reachable state of that kind.
- What a relay pass reads is in its row exactly if the pass succeeds or read
  nothing (`FlowTheorems.CountedIff`); `Starvation.LostFromTheRows` is a pass that
  delivers a byte, fails, and is not accounted.
- When one of a flow's two pipes cannot be had and the other can, the one that was
  taken is closed but stays counted; the pool then holds fewer pipes than its limit.
  `FlowTheorems.WrittenOffIff` says exactly when, from the pool and the kernel's
  answers. It needs a failing `pipe2` (`Guarantees.PipesSuffice`). Four connections
  cost a worker of two slots all its pipes (`Witnesses.PipesLost`), and a worker
  that has lost them all never relays again, whatever happens
  (`Guarantees.SpentForGood`).
- Event tokens carry no generation, so an error or hangup meant for an earlier flow
  ends the newcomer at its index while that is peeking, or connecting and the event
  is the upstream's, and never once it relays (`SiteTheorems.FailureEvent`).
  `Witnesses.StaleEventEnds` is such a run: both sockets of a connecting flow fail,
  its index is given to a new connection between the two events, and the second
  event ends that.
- A vacant slot holds on to a generation exactly if the last connection given the slot
  failed to register (`Worlds.VacantGeneration`; `Witnesses.GenerationLeft`).
- The idle time applied to a flow is the current configuration's, not that of the
  generation it was admitted under (`Guarantees.ReapsExactly`).
- The floor of the token bucket holds of what was earned plus what a full bucket
  lost. Of the earnings alone it is false of an idle bucket
  (`Throttle.FloorNeedsNoClip`) and true of one that is emptied at once and then
  at least every bucket's worth of time (`Throttle.FloorWhenPolled`).
- Of two files whose records agree kind by kind, the first accepted, the second
  gives the same configuration exactly if it has at most 1024 lines and no record
  of an unknown kind (`ConfigTheorems.OrderDecides`); both provisos are needed
  (`ConfigTheorems.ProvisosNeeded`).

## Model

| member | source | states |
|---|---|---|
| Guarantees.ExitPinning | native/privacy-proxy/src/worker.rs:434-544 | in every reachable state, a socket towards a destination belongs to a flow of whose own generation it has the first rule that applies - networks by their prefix bits, ports by range, the host its client's bytes name label by label - and that rule, or the default, allows it; it is bound to that rule's exit or to none if direct; never for a blocked flow, and never before the host was certain |
| Guarantees.RouteIsFinal | native/privacy-proxy/src/server.rs:331-350 | no step, in particular no reload or sweep, changes the pin, rule, stats row, generation or configuration of a flow that lives through it |
| Guarantees.ConfigurationsLast | native/privacy-proxy/src/server.rs:74-89 | whatever happens later, a published configuration is never changed and a stats row never moved or lost |
| Progress.PeekActs | native/privacy-proxy/src/worker.rs:391-431 | a peek is acted on exactly when the bytes shown cannot be the beginning of anything more; then the flow is counted in its row, has the first rule that applies for the host those bytes name, and leaves by the way that rule allows; otherwise it waits, or ends if the peek fails or finds a closed, silent client |
| Progress.DecisionActs | native/privacy-proxy/src/worker.rs:434-544 | deciding opens a socket by the way the rule allows whenever the exit is up, the binding accepted and the kernel willing, and opens none otherwise; under way, connected and relaying, or given up, as the connect says |
| Progress.ConnectingActs | native/privacy-proxy/src/worker.rs:365-388 | a connecting flow relays exactly if the upstream's event comes without error, two pipes can be had and both sockets watched, from fresh pumps on the pipes taken; otherwise the event closes it; one of the client's is nothing to it |
| Progress.RelayActs | native/privacy-proxy/src/worker.rs:645-701 | a pass leaves the sockets and pumps it ended with and goes on exactly if no call failed and a direction is still open |
| Progress.PassIsCharged | native/privacy-proxy/src/worker.rs:660-676 | what a rule has pulled grows by exactly the bytes its flow's pass read, and nobody else's |
| Progress.ResumedIsServed | native/privacy-proxy/src/worker.rs:785-795 | a flow that was due is left without a timer or with one 1 to 100 ms away |
| Progress.CloseActs | native/privacy-proxy/src/worker.rs:741-773 | closing gives back the pipes that hold nothing, for the next flow, and drops those that hold bytes; nothing counted is lost |
| Progress.PeekDecides | native/privacy-proxy/src/worker.rs:391-497 | of a step: an event for a flow still peeked at decides it exactly when enough is shown, counting it once, and leaves it as it was but for the time otherwise |
| Progress.ConnectCompletes | native/privacy-proxy/src/worker.rs:546-599 | of a step: the upstream's event of a completed connect leaves the flow live and relaying if its client has more to say and no call fails, and never connecting; without completion the flow is closed |
| Progress.AdmitActs | native/privacy-proxy/src/worker.rs:302-359 | a redirected connection is admitted whenever a slot is free and it can be watched, as a newcomer seen just now under the newest configuration, and peeked at once; otherwise nobody is |
| Progress.ReloadPublishes | native/privacy-proxy/src/server.rs:331-350 | of a step: a reload of a text that says a configuration publishes exactly that, with full buckets and flags read from the interfaces; any other changes nothing |
| Progress.AdmittedUnderIt | native/privacy-proxy/src/server.rs:331-350 | over any run: whoever is admitted after such a reload and before the next is under the configuration it said |
| Guarantees.ReachableIsRun | native/privacy-proxy/src/worker.rs:238-261 | the reachable states are exactly those some finite run of allowed steps ends in |
| Guarantees.SlabIsExact | native/privacy-proxy/src/worker.rs:302-359 | the free list holds every vacant index exactly once and nothing else |
| Guarantees.FieldsFitPhase | native/privacy-proxy/src/worker.rs:119-136 | in every reachable state each live flow has exactly the sockets, row and pumps of its phase, a rule only once decided, a timer only while relaying; a vacant slot holds none of these |
| Guarantees.GaugeIsExact | native/privacy-proxy/src/stats.rs:319-345 | the active count is the number of live flows holding a stats row over all workers, at most max_flows + workers - 1, and positive whenever a counted flow can end |
| Guarantees.PipesAreClean | native/privacy-proxy/src/relay.rs:96-123 | idle pipes are empty; idle plus held is at most live, at most two per slot |
| Guarantees.PipesSuffice | native/privacy-proxy/src/worker.rs:561-580 | while pipes can be created, live equals idle plus two per relaying flow, and no flow that connects is refused its pipes, later or in the very step that accepts it |
| Guarantees.SpentForGood | native/privacy-proxy/src/worker.rs:561-580 | a worker that has lost every pipe never relays a flow again, whatever happens and however willing the kernel is |
| Witnesses.PipesLost | native/privacy-proxy/src/worker.rs:561-566 | reachable states with no flow, no idle pipe and one to four pipes counted, the last with none left to give |
| Guarantees.StreamsAreWhole | native/privacy-proxy/src/relay.rs:190-250 | for every relaying flow in both directions: delivered followed by buffered equals read; half-closed at most once, exactly when the source ended and all was delivered |
| Guarantees.TornDownDelivered | native/privacy-proxy/src/worker.rs:693-699 | a successful pass that ends the flow has delivered both streams whole and announced both ends once, be it a relaying flow's or the first pass of one that connects, later or in its deciding handler |
| Guarantees.NoFlowIsForgotten | native/privacy-proxy/src/worker.rs:674-691 | timer or not, what a relaying flow's pipes hold waits for a full destination or an event on its way; without a timer, unless the last pass read 2^64 - 1 bytes, a source is left unread only behind a full pipe, which so waits exactly when its capacity is not 0 |
| Witnesses.NoEventToCome | native/privacy-proxy/src/relay.rs:205-208 | a reachable state in which, with pipes of capacity 0, a client's byte waits unread with no timer and no edge left |
| Guarantees.RateCeiling | native/privacy-proxy/src/worker.rs:709-735 | all flows under one rule of one generation together read at most a burst - a quarter second's worth within 16 KiB and 1 MiB - plus 125 bytes a second per kbit/s, for clock readings in any order |
| Sharing.DrawTakesAll | native/privacy-proxy/src/worker.rs:729-735 | a pass is granted all the refilled bucket holds and leaves it empty |
| Sharing.NextGetsNothing | native/privacy-proxy/src/worker.rs:709-735 | the next flow of the rule to ask is granted nothing exactly if it asks before the bucket has earned another byte |
| Sharing.PassReadsIff | native/privacy-proxy/src/worker.rs:645-664 | a successful pass over waiting bytes with room for them reads at least one exactly if it has a budget |
| Sharing.ReadsIffTokens | native/privacy-proxy/src/worker.rs:606-735 | such a rate-limited flow reads something exactly when its refilled bucket holds a byte; otherwise it is left as idle as before, with a timer |
| Sharing.GrantIsReadOrLost | native/privacy-proxy/src/worker.rs:635-660 | what a pass was granted is what it read plus a remainder that the rule loses |
| Sharing.SecondStarves | native/privacy-proxy/src/worker.rs:785-795 | a flow with bytes waiting that is resumed after another of its rule, before the bucket has earned another byte, reads nothing and stays as idle as it was |
| Sharing.StarvesThroughout | native/privacy-proxy/src/worker.rs:785-795 | and so after any number of rounds in each of which that happens, whatever arrives for it in between |
| Sharing.StarvedIsReaped | native/privacy-proxy/src/worker.rs:776-816 | and the housekeeping in which that happens reaps it once it has been idle for long enough |
| Starvation.OneOfTwoStarves | native/privacy-proxy/src/worker.rs:776-816 | a run with a housekeeping every 101 ms, as both timers ask, in which the first of two flows of a rule reads every byte the rule allows and the second none, each time a nanosecond late, until it is reaped after two minutes |
| Guarantees.RowsAddUp | native/privacy-proxy/src/stats.rs:378-406 | in every reachable state rendered flow counts sum to the FLOWS total and every live flow's row exists |
| Guarantees.ReapsExactly | native/privacy-proxy/src/worker.rs:797-816 | a sweep, one second or more after the last, closes exactly the flows idle for longer than the current configuration allows; before that nothing happens |
| Worlds.Ran | native/privacy-proxy/src/worker.rs:238-261 | any sequence of steps from any state satisfying the invariant keeps it |
| Worlds.StepKeeps | native/privacy-proxy/src/worker.rs:365-388 | every step keeps the invariant, all configurations and the route of every surviving flow; and writes off no pipe while pipes can be created |
| Worlds.LaunchedOk | native/privacy-proxy/src/server.rs:210-260 | the proxy as started from any accepted configuration satisfies the invariant |
| Worlds.FedOk | native/privacy-proxy/src/worker.rs:606-701 | whatever arrives at a flow's sockets between handlers, its route, its streams and its wakeups stay right |
| Worlds.ClearedEffect | native/privacy-proxy/src/worker.rs:365-388 | an event that uses up its edge leaves nothing behind that no event will announce |
| Worlds.HousekeepingIsTurns | native/privacy-proxy/src/worker.rs:776-816 | housekeeping is one turn for each flow due when it began, each still due at its turn, and then the reaping |
| SiteTheorems.ReadyKeeps | native/privacy-proxy/src/worker.rs:365-388 | an event for any index, live or vacant, keeps slab, pool, gauge and every flow's invariant |
| SiteTheorems.FailureEvent | native/privacy-proxy/src/worker.rs:365-388 | exactly what an error or hangup event does to the flow at its index, whichever flow it was meant for |
| Witnesses.StaleEventEnds | native/privacy-proxy/src/worker.rs:365-388 | a run in which an index is reused between the events of an earlier flow's two sockets and the second ends the newcomer |
| SiteTheorems.AdmitKeeps | native/privacy-proxy/src/worker.rs:302-359 | so does admission, refused, failed or granted |
| SiteTheorems.AdmittedAsAsked | native/privacy-proxy/src/worker.rs:322-341 | the flow admitted is the connection accepted, under the configuration current then |
| Worlds.VacantGeneration | native/privacy-proxy/src/worker.rs:322-354 | a vacant slot holds a generation exactly if the last connection given the slot failed to register |
| Witnesses.GenerationLeft | native/privacy-proxy/src/worker.rs:322-354 | a reachable vacant slot that holds one, and is free |
| SiteTheorems.ConcludedKeeps | native/privacy-proxy/src/worker.rs:376-388 | a handler followed by teardown if it gave up changes no other flow, returns the index once and the pipes it held |
| SiteTheorems.CloseKeeps | native/privacy-proxy/src/worker.rs:741-773 | closing any index keeps the invariant and needs nothing of the kernel |
| SiteTheorems.MaintainKeeps | native/privacy-proxy/src/worker.rs:776-816 | housekeeping keeps the invariant and resurrects nothing |
| SiteTheorems.ResumeAllKeeps | native/privacy-proxy/src/worker.rs:779-795 | every flow on the resume list is still the same relaying flow when its turn comes |
| SiteTheorems.DueIs | native/privacy-proxy/src/worker.rs:779-784 | the resume list is exactly the live flows whose timer has come, each once and in order |
| FlowTheorems.PeekedKeeps | native/privacy-proxy/src/worker.rs:391-431 | peeking, however few bytes it sees, leaves the flow waiting or decided for the host its whole stream gives |
| FlowTheorems.GlimpseIsHead | native/privacy-proxy/src/worker.rs:416-429 | a conclusive verdict on part of what waits is the verdict on all that could be shown; a full buffer is always conclusive |
| FlowTheorems.DecidedKeeps | native/privacy-proxy/src/worker.rs:434-497 | deciding routes by the first match of the flow's generation and counts it before anything can fail |
| FlowTheorems.NoOtherWayOut | native/privacy-proxy/src/worker.rs:475-544 | a socket only ever connects for a decided flow if its rule allows one and its exit is up and accepted the binding, and is bound to that exit, even if the connect or the registration fails; the flow is left with that socket or none |
| FlowTheorems.RoutedRow | native/privacy-proxy/src/worker.rs:461-466 | a decided flow is counted under its own host and action or, in a full table, under a fold row; and under its own action exactly when the table before could still show it |
| FlowTheorems.OpenedKeeps | native/privacy-proxy/src/worker.rs:499-544 | a flow is dialled only on a socket pinned as decided |
| FlowTheorems.ConnectedKeeps | native/privacy-proxy/src/worker.rs:546-599 | connecting takes two empty pipes or gives up, and starts relaying faithfully |
| FlowTheorems.PipesKeep | native/privacy-proxy/src/worker.rs:561-566 | what asking for both pipes does to the pool, whichever is refused; neither is with room for two and a willing kernel |
| FlowTheorems.WrittenOffIff | native/privacy-proxy/src/worker.rs:561-566 | a refusal writes off a pipe, and just one, exactly when the idle pipes, the room below the limit and the kernel's two answers give one and refuse the other |
| FlowTheorems.RelayedKeeps | native/privacy-proxy/src/worker.rs:606-701 | a relay call keeps route, streams, wakeups, accounts and buckets, or leaves a flow fit to be closed |
| FlowTheorems.RestedAwake | native/privacy-proxy/src/worker.rs:688-691 | a pass that stopped for want of budget has set the flow's timer, unless 2^64 - 1 bytes were read |
| FlowTheorems.PaidOk | native/privacy-proxy/src/worker.rs:729-735 | charging a pass keeps every bucket balanced and never lets a rule pull more than it was granted |
| FlowTheorems.PassIsTallied | native/privacy-proxy/src/worker.rs:666-676 | a successful pass adds exactly the bytes read from each side to its own row and no other; a failed pass adds nothing |
| FlowTheorems.CountedIff | native/privacy-proxy/src/worker.rs:649-673 | what a pass reads is in its row exactly if the pass succeeds, as it does when no system call fails, or read nothing |
| Starvation.LostFromTheRows | native/privacy-proxy/src/worker.rs:649-673 | a pass of a reachable flow that delivers a byte, fails, and adds nothing to any row |
| FlowTheorems.TimerIsShort | native/privacy-proxy/src/worker.rs:688-691 | only a rate-limited flow with no budget left gets a timer, 1 to 100 ms away |
| FlowTheorems.PassRefreshes | native/privacy-proxy/src/worker.rs:674-676 | a flow counts as active at exactly the passes that read a byte |
| FlowTheorems.SweepDecides | native/privacy-proxy/src/server.rs:392-409 | after a sweep or a reload a rule's exit is usable exactly if its interface was up, and is refused otherwise |
| FlowTheorems.ResumedKeeps | native/privacy-proxy/src/worker.rs:785-795 | resuming a throttled flow keeps all of this |
| FlowTheorems.ClosedKeeps | native/privacy-proxy/src/worker.rs:741-773 | closing returns exactly what the flow held: empty pipes to the pool, others dropped, one off the gauge |
| FlowTheorems.HeadStable | native/privacy-proxy/src/parser.rs:115-131 | the host name of a client's stream does not change as the stream grows |
| Workers.Worker.constructor | native/privacy-proxy/src/worker.rs:191-232 | a worker starts with every slot vacant and free, slot 0 first |
| Workers.Worker.Admit | native/privacy-proxy/src/worker.rs:302-359 | in place: the whole state becomes that of AdmitAt |
| Workers.Worker.FlowReady | native/privacy-proxy/src/worker.rs:365-388 | in place: the whole state becomes that of ReadyAt |
| Workers.Worker.PeekFlow | native/privacy-proxy/src/worker.rs:391-431 | in place: state and outcome are those of Peeked |
| Workers.Worker.Route | native/privacy-proxy/src/worker.rs:434-475 | in place: the rule, the stats row and the count of Routed |
| Workers.Worker.Decide | native/privacy-proxy/src/worker.rs:434-497 | in place: state and outcome are those of Decided |
| Workers.Worker.OpenUpstream | native/privacy-proxy/src/worker.rs:499-544 | in place: state and outcome are those of OpenedUp |
| Workers.Worker.FinishConnect | native/privacy-proxy/src/worker.rs:546-599 | in place: state and outcome are those of ConnectedUp |
| Workers.Worker.PumpFlow | native/privacy-proxy/src/worker.rs:606-664 | in place: the flow's sockets and pumps after the whole pass |
| Workers.Worker.RelayFlow | native/privacy-proxy/src/worker.rs:606-701 | in place: state and outcome are those of Relayed |
| Workers.Worker.Budget | native/privacy-proxy/src/worker.rs:709-735 | in place: grants and charges the bucket of the flow's rule |
| Workers.Worker.Close | native/privacy-proxy/src/worker.rs:741-773 | in place: the whole state becomes that of CloseAt |
| Workers.Worker.Maintain | native/privacy-proxy/src/worker.rs:776-816 | in place: the whole state becomes that of Maintained |
| Workers.Worker.TimeoutMs | native/privacy-proxy/src/worker.rs:264-273 | the loop never sleeps past a throttled flow's moment, and for no shorter than that or 200 ms demands |
| Workers.TokenRoundTrip | native/privacy-proxy/src/worker.rs:80-95 | an event token names its flow and side, and no listener, exactly when the index is below 2^62 |
| Server.GlobalCap | native/privacy-proxy/src/server.rs:216-224 | as many workers as asked for or as there are processors, within one and four, whose caps together cover max_flows and exceed it by at most their number less one |
| Server.BuiltOk | native/privacy-proxy/src/server.rs:92-111 | a new generation has a balanced bucket for exactly its rate-limited rules and a flag for each exit |
| Server.ReloadedOk | native/privacy-proxy/src/server.rs:331-350 | a reload of any text keeps all that is shared right and every earlier configuration as it was |
| Server.SharedState.Reload | native/privacy-proxy/src/server.rs:331-350 | in place: publishes a file that parses, changes nothing otherwise |
| Server.SharedState.SweepExits | native/privacy-proxy/src/server.rs:392-409 | in place: sets each exit flag of the current generation |
| Pass.Step | native/privacy-proxy/src/worker.rs:823-857 | in place: pump and sockets after one fill, drain and finish, what was read and whether anything happened |
| Pass.RunPass | native/privacy-proxy/src/worker.rs:645-664 | in place: the loop ends, with sockets, pumps, budget and counts of the whole pass |
| Pass.TurnMeasure | native/privacy-proxy/src/worker.rs:640-664 | twice the unread bytes, present or yet to arrive in the pass, plus the bytes in the pipes plus the ends not yet reported falls on every turn that progresses |
| PassTheorems.StepFaithful | native/privacy-proxy/src/worker.rs:823-857 | one direction's step carries its own stream in order, disturbs nothing of the other, and announces an end as soon as there is nothing left to deliver |
| PassTheorems.PassFaithful | native/privacy-proxy/src/worker.rs:645-664 | stream fidelity over a whole pass, failing or not |
| PassTheorems.DoneIsDelivered | native/privacy-proxy/src/worker.rs:693-699 | both directions finished means both streams delivered whole and both sockets half-closed once |
| FlowTheorems.DoneDelivers | native/privacy-proxy/src/worker.rs:693-699 | whichever handler makes it, a pass that succeeds and ends the flow has delivered both streams whole and announced both ends once |
| FlowTheorems.HandlerRelays | native/privacy-proxy/src/worker.rs:391-599 | a handler that gets a flow to relay, sockets watched, ends in a pass from the relaying flow, from a connecting one given both pipes, or from one dialled by the first match of its own host name: the states TornDownDelivered is about |
| PassTheorems.PassQuiet | native/privacy-proxy/src/worker.rs:645-664 | a pass that returns leaves nothing undone that no event will announce, unless its budget is gone |
| PassTheorems.PendingIff | native/privacy-proxy/src/relay.rs:175-215 | after a pass with budget left a source is left unread only behind a full pipe, and that pipe waits for a full destination exactly when it can hold a byte |
| PassTheorems.PassPulls | native/privacy-proxy/src/worker.rs:645-664 | a pass never reads more than its budget, even failing; succeeding, budget and counters account for every byte read |
| Relay.PipePool.TakePipe | native/privacy-proxy/src/relay.rs:96-110 | in place: an idle pipe, a new one, a refusal at the limit or the kernel's |
| Relay.PipePool.GiveBack | native/privacy-proxy/src/relay.rs:116-123 | in place: an empty pipe becomes idle, one with bytes is dropped |
| Relay.Pump.FillFrom | native/privacy-proxy/src/relay.rs:190-220 | in place: reads into the pipe; end of file is reported once |
| Relay.Pump.DrainTo | native/privacy-proxy/src/relay.rs:223-237 | in place: writes out of the pipe |
| Relay.Pump.FinishTo | native/privacy-proxy/src/relay.rs:241-250 | in place: half-closes once, after the end and the last byte |
| Relay.Pump.Recycle | native/privacy-proxy/src/relay.rs:180-182 | in place: the pipe goes back by what it still holds |
| Parser.PeekHead | native/privacy-proxy/src/parser.rs:115-122 | the verdict of the listener's parser |
| Parser.VerdictStable | native/privacy-proxy/src/parser.rs:115-131 | up to the peek limit a conclusive verdict never changes as more arrives, in both modes |
| Parser.ConclusiveAtLimit | native/privacy-proxy/src/parser.rs:125-131 | at the limit the verdict is conclusive |
| Parser.HostFoundIff | native/privacy-proxy/src/parser.rs:115-122 | on a TLS listener a host is found exactly when the stream carries a ClientHello naming it, on an HTTP listener exactly when it begins with a request naming it |
| Parser.WaitsIff | native/privacy-proxy/src/parser.rs:115-131 | and more is waited for exactly below 8192 bytes while the stream may be the beginning of one |
| Tls.PeekTls | native/privacy-proxy/src/parser.rs:203-292 | the loop over records computes TlsVerdict |
| Tls.ReadHandshakeLength | native/privacy-proxy/src/parser.rs:301-322 | the length of a handshake message from its first four bytes |
| Tls.ParseClientHelloBody | native/privacy-proxy/src/parser.rs:329-370 | the cursor walk over a ClientHello computes BodyVerdict |
| Tls.WalkExtensions | native/privacy-proxy/src/parser.rs:380-403 | the loop over extensions computes FindServerName within its fuel |
| Tls.ParseServerNameList | native/privacy-proxy/src/parser.rs:407-444 | the loop over names computes NameList within its fuel |
| TlsTheorems.TlsVerdictStable | native/privacy-proxy/src/parser.rs:203-292 | TLS verdicts survive TCP segmentation |
| TlsTheorems.ReadsHello | native/privacy-proxy/src/parser.rs:329-444 | serialise then parse: every well-formed ClientHello gives the first host_name of its first server_name extension, when both lie within the fuel |
| TlsTheorems.FragmentationInvariance | native/privacy-proxy/src/parser.rs:203-292 | a ClientHello cut into any non-empty records gives the verdict of its body if there are at most 1024 records and none if there are more |
| TlsTheorems.HelloRoundTrip | native/privacy-proxy/src/parser.rs:203-444 | both together: serialise, fragment, parse |
| TlsEvidence.VerdictGivesEvidence | native/privacy-proxy/src/parser.rs:203-444 | every host name returned has a witness in the bytes: records, handshake, extension and list entry |
| TlsEvidence.HostFoundIffCarried | native/privacy-proxy/src/parser.rs:203-444 | a host name is returned if and only if such a witness carries it |
| TlsEvidence.WaitsIff | native/privacy-proxy/src/parser.rs:203-322 | more is waited for exactly while the bytes are whole handshake records and the beginning of the next, of a ClientHello that can end within 8192 bytes and has not; anything else is concluded at once |
| Http.PeekHttpHost | native/privacy-proxy/src/parser.rs:491-548 | the loop over header lines computes HttpVerdict |
| Http.Lines.Next | native/privacy-proxy/src/parser.rs:458-473 | the next complete line, without its line ending |
| Http.PlausibleMethodPrefix | native/privacy-proxy/src/parser.rs:551-563 | the loop decides whether a request line can still follow |
| Http.TrimOws | native/privacy-proxy/src/parser.rs:610-626 | the two loops strip white space at both ends |
| Http.TrimOwsSplits | native/privacy-proxy/src/parser.rs:610-626 | what is stripped is white space only, and all of it at the ends |
| Http.StripPortExact | native/privacy-proxy/src/parser.rs:633-644 | a host followed by a port of one to five digits loses exactly the port |
| Http.StripPortOnly | native/privacy-proxy/src/parser.rs:633-644 | nothing else is ever removed |
| HttpTheorems.HostFoundIff | native/privacy-proxy/src/parser.rs:491-644 | said of the lines: a host name is returned if and only if the request line is valid, the blank line comes in time, every header is tolerable, and exactly one is a Host whose value validates |
| HttpEvidence.HostFoundIffRequested | native/privacy-proxy/src/parser.rs:491-644 | said of the bytes: if and only if they are a method, a target and HTTP/1.d, at most 127 header lines ended by LF or CR LF, one of them `host:` in any case with white space, a name and perhaps a port of one to five digits, and a blank line; and it is that name |
| HttpEvidence.RequestIsRead | native/privacy-proxy/src/parser.rs:491-548 | serialise, then parse: every such request gives its host, whatever follows |
| HttpEvidence.RequestLineIff | native/privacy-proxy/src/parser.rs:569-590 | a request line is valid exactly if it is 1 to 16 capitals, a space, and ends in HTTP/1. and a digit |
| HttpEvidence.WaitsIff | native/privacy-proxy/src/parser.rs:491-563 | more is waited for exactly below 8192 bytes while what has come may be the beginning of a request; anything else is concluded at once |
| HttpTheorems.HttpVerdictStable | native/privacy-proxy/src/parser.rs:491-548 | HTTP verdicts survive TCP segmentation |
| Hostnames.Parse | native/privacy-proxy/src/hostname.rs:88-136 | the one-pass validator computes ParsedName |
| Hostnames.AcceptsExactlyLabelLists | native/privacy-proxy/src/hostname.rs:88-136 | a text is a name if and only if it is labels of 1 to 63 letters, digits and inner hyphens with dots between, at most 253 bytes, and perhaps one more dot; and the name is that in lower case |
| Hostnames.ParseIsIdempotent | native/privacy-proxy/src/hostname.rs:88-136 | re-parsing a parsed name is the identity |
| Hostnames.ParseIgnoresCaseAndTrailingDot | native/privacy-proxy/src/hostname.rs:88-136 | names that differ in case or one trailing dot parse alike |
| Hostnames.SuffixIsLabelSuffix | native/privacy-proxy/src/hostname.rs:253-276 | the byte test for a suffix pattern means that the pattern's labels end the host's labels, apex included |
| Rules.MatchRule | native/privacy-proxy/src/rules.rs:302-304 | the first rule that matches, or that none does |
| Rules.ChoosesFirst | native/privacy-proxy/src/rules.rs:258-304 | the rule chosen is the first all of whose present conditions hold: source and destination in the networks, not UDP, the port in a range, the host's labels equal to or ending with the pattern's; and none is chosen exactly if there is none |
| Rules.CidrReads | native/privacy-proxy/src/rules.rs:146-174 | `address/prefix` contains exactly the addresses that agree with it in their top prefix bits; an address alone is a network of one |
| TextTheorems.AddressReads | native/privacy-proxy/src/rules.rs:157 | an address is read from four decimal octets with dots between, and from nothing else |
| TextTheorems.UintReads | native/privacy-proxy/src/config.rs:467-497 | a number is read from its digits, with or without a plus sign and leading zeros, up to the largest of its type, and from nothing else |
| TextTheorems.PortsRead | native/privacy-proxy/src/rules.rs:187-214 | up to 32 ports and ranges with commas between read as they stand |
| TextTheorems.PatternReads | native/privacy-proxy/src/hostname.rs:244-249 | a name stands for itself, and `*.` before a name for those that end in it |
| Rules.ParsePortSpec | native/privacy-proxy/src/rules.rs:187-214 | the loop collects every range, at most 32, or fails |
| ConfigFile.Parse | native/privacy-proxy/src/config.rs:174-207 | the line loop computes ParseConfig, error line and kind included |
| ConfigFile.Builder.AddRecord | native/privacy-proxy/src/config.rs:269-282 | in place: the draft after one record, or its error |
| ConfigFile.Builder.Complete | native/privacy-proxy/src/config.rs:403-451 | the second pass resolves every action or reports the first error |
| ConfigTheorems.OrderIndependence | native/privacy-proxy/src/config.rs:174-207 | files whose records agree kind by kind, unknown kinds and the line limit included, both fail or both give the same configuration |
| ConfigTheorems.OrderDecides | native/privacy-proxy/src/config.rs:174-207 | of two files whose known records agree, the first accepted, the second gives the same configuration exactly if it is within the line limit and has no unknown record |
| ConfigTheorems.ProvisosNeeded | native/privacy-proxy/src/config.rs:174-207 | an accepted file that one unknown record, or enough blank lines, has rejected |
| ConfigTheorems.ReadsWhatItSays | native/privacy-proxy/src/config.rs:174-451 | a file is accepted if and only if it says a configuration - header, known records, valid and distinct listeners and exits, one default, dense rules, readable limits - and it is read as that one, column by column |
| ConfigTheorems.TextLinesRead | native/privacy-proxy/src/config.rs:174-182 | lines are what ends in a line feed, the last one not necessarily |
| ConfigTheorems.SignificantSnoc | native/privacy-proxy/src/config.rs:183-194 | a line counts, trimmed, unless nothing is left of it or it begins with `#` |
| TextTheorems.TrimSplits | native/privacy-proxy/src/config.rs:183-194 | trimming takes white space away, and all of it at both ends |
| ConfigTheorems.AcceptedIsWellFormed | native/privacy-proxy/src/config.rs:269-451 | accepted files have distinct ports from 1024, distinct exit keys, dense rule numbers, exit indices in range, networks with proper masks and rates above zero |
| ConfigTheorems.ParseOutcome | native/privacy-proxy/src/config.rs:174-207 | line numbers, comments and blank lines matter to errors only |
| Throttle.TokenBucket.Refill | native/privacy-proxy/src/throttle.rs:77-94 | in place: whole bytes earned are added up to the capacity; the mark stays when none was earned |
| Throttle.TokenBucket.Take | native/privacy-proxy/src/throttle.rs:99-105 | in place: refills, then grants what there is |
| Throttle.BucketIs | native/privacy-proxy/src/throttle.rs:55-72 | a bucket fills at 125 bytes a second per kbit/s, holds a quarter second's worth within 16 KiB and 1 MiB, and starts full |
| Throttle.AlwaysBalanced | native/privacy-proxy/src/throttle.rs:77-105 | over any calls what is granted was in the burst or earned, and the time not counted is worth less than a byte |
| Throttle.Ceiling | native/privacy-proxy/src/throttle.rs:55-105 | grants up to any instant are at most burst plus rate times elapsed time, for calls in any order |
| Throttle.Floor | native/privacy-proxy/src/throttle.rs:77-94 | however finely it is polled, more than half of the elapsed time's worth less half a byte is earned or lost to a full bucket |
| Throttle.FloorNeedsNoClip | native/privacy-proxy/src/throttle.rs:77-94 | a full bucket earns nothing, so the floor on earnings alone fails there |
| Throttle.FloorWhenPolled | native/privacy-proxy/src/throttle.rs:77-105 | the floor on the earnings alone, for calls that take everything, the first at once and then at most a bucket's worth of time apart |
| Throttle.WaitEarnsAByte | native/privacy-proxy/src/throttle.rs:112-121 | a bucket left alone for as long as its hint says earns at least a byte, exactly at every rate above zero; which flow gets it is another matter |
| Throttle.HintIsABurst | native/privacy-proxy/src/throttle.rs:112-121 | within 1 and 100 ms the hint is the time that 16 KiB, or all the bucket holds, takes to earn, rounded down for each byte |
| Stats.StatsTable.FindEntry | native/privacy-proxy/src/stats.rs:268-290 | the scan with the hash compared first finds the pair's entry, or that there is none |
| Stats.StatsTable.InsertOrFind | native/privacy-proxy/src/stats.rs:268-316 | in place: finds or inserts, named rows from the front, fold rows from the back |
| Stats.StatsTable.AssignSlot | native/privacy-proxy/src/stats.rs:252-265 | in place: the pair's row, else the fold row, else the last slot |
| Stats.StatsTable.Render | native/privacy-proxy/src/stats.rs:378-406 | the rows rendered are those of the entries with something counted |
| Stats.RowsAre | native/privacy-proxy/src/stats.rs:378-406 | there is a row for each pair that has counted something, with its own host, action and counters, and no other |
| Stats.SlotForKeeps | native/privacy-proxy/src/stats.rs:252-316 | keys and slots stay distinct; a pair gets its own row, its action's fold row, or the one fold row there can be |
| Stats.LabelIff | native/privacy-proxy/src/stats.rs:252-316 | the row given carries the flow's own action exactly if the pair has a row, a row can be made, or a row of other carries it |
| Stats.LabelLost | native/privacy-proxy/src/stats.rs:252-316 | 512 real host names with one action fill the table, after which any other action is counted under that one's label |
| Stats.SlotIsStable | native/privacy-proxy/src/stats.rs:252-316 | the slot of a pair never changes, however the table grows |
| Stats.HistoryConserves | native/privacy-proxy/src/stats.rs:319-406 | over any history the rendered rows add up to exactly what was counted and to the FLOWS total |
| Sse.ParseSseFrame | src/components/chat/sse.ts:29-52 | the loop over lines decodes the joined data lines |
| Sse.FeedSse | src/components/chat/sse.ts:16-26 | the loop over frames gives the events and the remainder of Feed |
| Sse.FirstBlankStable | src/components/chat/sse.ts:16-19 | a blank line found stays where it is as text arrives, however its line endings are cut |
| Sse.FramesAppend | src/components/chat/sse.ts:16-26 | cutting a text in two and feeding the halves gives the frames of the whole |
| Sse.ChunkInvariance | src/components/chat/sse.ts:16-26 | for every cutting into chunks, events and remainder are those of one call on the whole text |
| Sse.WireRoundTrip | src/components/chat/sse.ts:16-52 | frames of any number of data and other lines, with any line endings and cut anywhere, give back exactly the events of their data lines joined by line feeds, and nothing is left over |

## Left out

- System calls (`sys.rs`), signals, `--probe`, file writing, listeners and the accept loop: an environment answers for them; an accepted connection is a step.
- Interleaving inside a handler: workers alternate in whole handlers (in housekeeping, in whole turns), so a reload between two lock acquisitions of one handler is not represented, nor are lock poisoning and memory ordering.
- Guarantees.NoFlowIsForgotten: exempts a flow whose last pass read 2^64 - 1 bytes, because an unlimited pass has a budget of that size and stops there without a timer; the next pass ends the exemption.
- Counter widths: flow and byte counts are unbounded where the source wraps or saturates at 2^64; the bucket's own saturations are kept.
- Pipe capacity is in bytes; the kernel's page granularity is not modelled.
- Peeking flows: the wakeup guarantee is about relaying flows; a flow still peeking is woken by epoll for every new segment, which `Kernel` does not promise.
- Degradation flags, and the process-level half of `serve` (descriptor limits, threads, flush).
- `ActionLabel` and `HostKey` arrays are byte sequences; the copying loops are modelled by value.
- `JSON.parse` and the type check on its result are one parameter, `decode`.
- Number and address tokens follow Rust's `FromStr` as functions in `Text`; error-message wording is reduced to a kind.
- Workers.Worker.RelayFlow: a flow without pumps is refused rather than passed over; `FlowTheorems.Shape` shows that no relaying flow lacks them.
- Workers.Worker.Admit: the modelled client socket is new; a descriptor shared with other code is not represented.
- The front end's other helpers, the certificate server and the settings pages: user interface, library calls or one-branch functions.
