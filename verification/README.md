# Tessa supervisor: verified model

This project models the stateful parts of the Tessa device supervisor (`tessad`) in Dafny and proves what
they keep over all inputs, all runs and all interleavings.

| file | models |
|---|---|
| `SessionManager.dfy` | the table of active SSH sessions and its broadcast |
| `SshServer.dfy`, `SshServerProofs.dfy`, `SshController.dfy` | the SSH server's lifecycle: Prepare, Run, Stop, accept loop, handlers, PTY waiters |
| `SshConnections.dfy`, `SshShutdown.dfy` | what becomes of one connection; how a run of the server ends |
| `PubSub.dfy`, `PubSubProofs.dfy`, `PubSubOrder.dfy`, `InMemoryPubSub.dfy` | the in-memory pub/sub with bounded lossy channels |
| `Subscribers.dfy` | the subscriber runtime on top of it |
| `TunnelManager.dfy` | the tunnel supervisor, one call at a time |
| `TunnelRaces.dfy` | the same with calls and failing clients interleaved at every access |
| `CommandManager.dfy` | the command store and its races |
| `MqttTopic.dfy`, `Webhook.dfy`, `Wiring.dfy` | topic normalisation, the webhook that uses it, and the way from a post to a subscriber |
| `Release.dfy` | the latest-tag pipeline and version bump of the release script |
| `SudoArgs.dfy` | the quoting printer of the install script |
| `Common.dfy`, `Text.dfy` | runs of step machines; joining, splitting and decimal numerals |

`dafny verify dfyconfig.toml` checks all of it.

## How the concurrent parts are modelled

A component with goroutines is a machine: a state, a datatype of labelled steps, and a function `Apply`. Each
lock section, WaitGroup or Once action, channel send and store operation is one step of some goroutine. A
step whose goroutine is elsewhere or blocked leaves the state alone, so every sequence of steps is a run and
every interleaving is a sequence. Go's panics (nil dereference, negative WaitGroup, closing or sending on a
closed channel) are crash states that `Apply` enters; the theorems say exactly which runs get there.

The same operations are also written as the code has them, as methods of classes that update fields in loops,
and each method is proved to do what the machine's steps for that call do when nothing comes in between.

What the surroundings decide is left open: handshakes, accepts, PTY exits, client failures, failed pushes
and drains, and Go's map iteration order are parameters or freely chosen steps. `Run` is called once for
each successful `PrepareConfigAndListener`. Fields such as `sends`, `published`, `dones`, `runs` and
`broadcast` are history kept for the statements; no branch of the code reads them. A section of the
controller's mutex is one step: the goroutines that read `config` and `listener` without the lock are shown
not to be at those reads when Prepare or the reset writes them.

## Where the code and its words differ

The code is followed, and the difference is proved.

- `controller.go:204` logs that all connections are closed. A handshake that ends after the broadcast is not
  closed by it (`LateHandshakeIsNotClosed`), nor is one that reused the address of a connection not yet cleaned
  up and so lost its row in the table (`ReusedAddressIsNotClosed`); `ClosedExactlyWhenInTableAtLock` says which
  connections are.
- `server.go:96-99` says the thing's name is removed from the path. The code removes the first match even
  where it is only the beginning of a segment (`NormalizeDeletesExactly`, `LongerNameIsCut`).
- `conn.go:87` lets a PTY's end clean a connection up, so the WaitGroup does not count the handlers alive: `Run` can
  return while one still serves (`RunReturnsWhileHandlerServes`).
- `scripts/install.sh:18` has the arguments properly quoted. `echo` swallows one that it takes for options, as the script's
  own `-n` (`FlagsComeBack`, `RoundTripExactly`).
- `release.sh` sorts three-digit keys. A component of 1000 breaks the order (`PicksGreatestExactlyTo999`).
- A tunnel client that fails after a newer one was started clears the newer one's `cancel`
  (`OneRunKeptExactly`, `StaleFailureLeaks`).
- `m.cancel` has no lock. A Stop panics on a nil `m.cancel` if and only if somebody clears it between the check
  and the call (`PanicsExactlyWhenClearedInBetween`, `FailureDuringStopPanics`), and a client is left running with
  nothing to stop it if and only if a live context's `m.cancel` is overwritten (`NeverLeaksExactly`,
  `OverlappingProxiesLeak`).
- Overlapping AddCommands, or overlapping RemoveCommands, of one ID lose a running command (`LostExactly`,
  `TwoAddersLose`, `TwoRemoversLose`); without such overlaps none is lost (`NoOverlapLosesNothing`).
- A second Stop in one run, and a second call of an unsub whose topic has subscribers, close a closed channel
  (`PanicsExactlyOnSecondStop`, `SecondStopPanics`, `PanicsExactlyOnSecondUnsub`, `SecondUnsubPanics`).

## Model

| member | source | states |
|---|---|---|
| `SshServerProofs.WaitGroupCountsUncleaned` | internal/ssh/conn.go:18-37 | In every interleaving the WaitGroup counter is the number of accepted connections not yet cleaned up (so never negative), and no connection is counted off twice |
| `SshServerProofs.TicketGivenBackExactly` | internal/ssh/conn.go:20-34 | A connection's ticket is back if and only if its failed handshake has called Done or its one Once-guarded cleanup has got past Done |
| `SshServerProofs.LeftoversNeverDecrement` | internal/ssh/conn.go:75-88 | Every decrement is by one, for one connection of the current run whose ticket is outstanding; a handler or PTY waiter left over from an earlier run never decrements a later run's counter |
| `SshServerProofs.TableKeysHaveTickets` | internal/ssh/session.go:30-50 | Every session in the table is at its own connection's address and that connection's ticket is outstanding, also when two connections share an address |
| `SshServerProofs.EmptyUntilNextRun` | internal/ssh/controller.go:199-214 | Past `wg.Wait` the table is empty and no ticket is out, and this lasts through any steps of leftover goroutines, Stops and Prepares until the next Run starts |
| `SshServerProofs.UnlockedReadsAreSafe` | internal/ssh/controller.go:162-174 | The lock-free reads never see nil: a handler reads the config its own run prepared, and the accept loop a non-nil listener, across any number of Prepare/Run cycles |
| `SshServerProofs.NoAddDuringWait` | internal/ssh/controller.go:199-207 | Once Run is at `wg.Wait` no step raises the counter |
| `SshServerProofs.TableFrozenDuringBroadcast` | internal/ssh/session.go:52-81 | From lock acquisition to unlock, grace period included, no step of any goroutine changes the table |
| `SshServerProofs.BroadcastClosesTheLockedTable` | internal/ssh/session.go:52-81 | After the broadcast the connections closed are exactly those of the table at lock acquisition, and each of them was announced to on its session's channel if it had one |
| `SshServerProofs.PanicsExactlyOnSecondStop` | internal/ssh/controller.go:223-234 | A run panics (nil config, nil listener, negative counter, double close) if and only if two Stops find the server running in one Prepare/Run cycle |
| `SshServerProofs.SecondStopPanics` | internal/ssh/controller.go:223-234 | Prepare and two Stops reach that panic |
| `SshServerProofs.WhatWouldPanic` | internal/ssh/conn.go:18-33 | In any state at all a nil read, a negative counter or a second close would be one of the panics counted there |
| `SshServerProofs.ClosedExactlyWhenInTableAtLock` | internal/ssh/controller.go:202-204 | In every run, a connection known at `wg.Wait` was closed by the broadcast if and only if the table held it, at its address, when the lock was taken, and announced to, on a channel, if and only if its entry also had that channel |
| `SshServerProofs.ClosedExactlyWhenListedAtLock` | internal/ssh/controller.go:202-204 | If no address is reused while in use: if and only if it was past Add and short of Remove, and announced to on a channel if and only if that was also the last it had opened by then |
| `SshServerProofs.ReusedAddressIsNotClosed` | internal/ssh/session.go:46-50 | A run in which a connection past Add and short of Remove at the lock is not closed, since the cleanup of an earlier connection at its address took its row |
| `SshServerProofs.LateHandshakeIsNotClosed` | internal/ssh/controller.go:203-207 | A run in which a handshake ends after the broadcast: "all connections are closed" is false and Run waits for it |
| `SshServerProofs.SessionHasLastOpened` | internal/ssh/session.go:37-43 | In every run without address reuse a session in the table has the last channel its own connection opened |
| `SshConnections.RejectedIsNeverServed` | internal/ssh/conn.go:19-24 | After a failed handshake the handler is on its way out in every later state; the connection has no session, channel or PTY, and its ticket is back if and only if the handler has gone |
| `SshConnections.RejectedTicket` | internal/ssh/conn.go:19-24 | The step that gives that ticket back is the failed handshake's Done and no other |
| `SshConnections.ServedOnlyAfterHandshake` | internal/ssh/conn.go:18-27 | A connection that is served, has a session in the table or a PTY has a successful handshake behind it |
| `SshConnections.GoroutinesEndAfterCleanup` | internal/ssh/conn.go:29-37 | A served handler and a PTY waiter end only when the cleanup is done, once; it runs only once one of them got to it; PTYs belong to channels |
| `SshConnections.EndedStaysEnded` | internal/ssh/conn.go:75-88 | A goroutine that has ended stays so, whatever steps follow |
| `SshShutdown.PhasesInOrder` | internal/ssh/controller.go:191-203 | The listener is open until Run has closed it and closed from then on, and the accept loop is over before the session lock is taken |
| `SshShutdown.ShutdownHasCause` | internal/ssh/controller.go:182-189 | A run is shut down only if its timer fired or a Stop found it running, in that run |
| `SshShutdown.RunCanReturn` | internal/ssh/controller.go:159-216 | Nothing gets stuck: from every state of every run that has not panicked, with the stop signal or the timer, Run can return and every goroutine of every connection can end, leaving the fields, counter and table as at the start |
| `SshShutdown.GoroutinesCanEnd` | internal/ssh/conn.go:37-88 | So can the goroutines left over from an earlier run, whenever no broadcast holds the lock |
| `SshShutdown.RunReturnsWhileHandlerServes` | internal/ssh/conn.go:75-88 | A run in which a PTY's end cleans up and Run returns while the handler still serves the connection |
| `SessionManager.Manager.Add` | internal/ssh/session.go:30-34 | A fresh session without channel replaces whatever was at the address |
| `SessionManager.Manager.SetChannel` | internal/ssh/session.go:37-43 | That very channel is recorded if the address has a session, whose connection stays; nothing else changes |
| `SessionManager.Manager.Remove` | internal/ssh/session.go:46-50 | The address has no session any more, every other one is untouched |
| `SessionManager.Manager.BroadcastAndClose` | internal/ssh/session.go:52-81 | In any iteration order each session's connection is closed once, and each session with a channel is announced to once, on that channel, and nobody else |
| `SshController.Controller.PrepareConfigAndListener` | internal/ssh/controller.go:41-95 | Which of the four errors is returned when, in the order of the checks; success sets all four fields as the machine's Prepare step, an error changes nothing |
| `SshController.Controller.Stop` | internal/ssh/controller.go:223-234 | The machine's Stop step, panicking exactly when that step does |
| `SshController.Controller.CloseListenerSection` | internal/ssh/controller.go:192-197 | The first critical section of Run is the machine's step |
| `SshController.Controller.ResetSection` | internal/ssh/controller.go:209-214 | The second critical section of Run is the machine's step and leaves the fields as Prepare needs them |
| `PubSubProofs.OpenMeansRegisteredOnce` | internal/pubsub/pubsub.go:57-97 | In every run a channel is open if and only if registered, under exactly its own topic; no topic maps to an empty set; closed means no subscriptions and every channel closed |
| `PubSubProofs.ChannelConservation` | internal/pubsub/pubsub.go:46-53 | Received then buffered is exactly what was enqueued, in order; the buffer never exceeds 64; a send is dropped if and only if it found 64 buffered |
| `PubSubProofs.EachPublicationOfferedOnce` | internal/pubsub/pubsub.go:40-55 | With any number of concurrent publishers each publication on the topic during the subscription, and no other, is offered to the channel exactly once or is pending with a publisher still in its loop |
| `PubSubProofs.PendingChannelsAreOpen` | internal/pubsub/pubsub.go:40-55 | Every channel a publisher has yet to visit is open and of its topic |
| `PubSubProofs.PanicsExactlyOnSecondUnsub` | internal/pubsub/pubsub.go:68-78 | No run sends on a closed channel; a run closes one twice if and only if some unsub runs twice while its topic has a subscriber |
| `PubSubProofs.SecondUnsubPanics` | internal/pubsub/pubsub.go:68-78 | Two subscriptions of a topic and two calls of one's unsub reach that panic |
| `PubSubProofs.SendOnClosedWouldPanic` | internal/pubsub/pubsub.go:49-50 | In any state at all a send on a closed channel would be the panic excluded there |
| `PubSubProofs.UnsubIsFinal` | internal/pubsub/pubsub.go:68-78 | After its unsub a channel stays closed and unregistered through any later steps |
| `PubSubOrder.PublisherOrderKept` | internal/pubsub/pubsub.go:40-55 | With any number of concurrent publishers each one's messages reach a subscriber in the order it published them: a subsequence of its publications on the topic, and all of them if and only if none found 64 outstanding |
| `PubSubOrder.BoundedRefinesUnbounded` | internal/pubsub/pubsub.go:46-63 | With one publisher the stream is a subsequence of the topic's publications, and all of them if and only if no send found 64 outstanding |
| `InMemoryPubSub.PublishInAnyOrder` | internal/pubsub/pubsub.go:40-55 | An uninterrupted publisher reaches the same state in whatever order the channels are visited: every subscriber is offered the message once |
| `InMemoryPubSub.PublishReachesSubscribers` | internal/pubsub/pubsub.go:40-55 | A whole Publish puts the message last in every open channel of the topic that holds fewer than 64, and touches no other channel |
| `InMemoryPubSub.SubscribeAddsChannel` | internal/pubsub/pubsub.go:57-67 | A whole Subscribe adds one open, empty channel under the topic and under no other |
| `InMemoryPubSub.UnsubClosesChannel` | internal/pubsub/pubsub.go:68-79 | A first unsub closes its channel, leaves what is buffered to be received, and takes the channel out of every topic; other channels stay as they are |
| `InMemoryPubSub.CloseClosesAll` | internal/pubsub/pubsub.go:83-97 | Close leaves no subscription and no open channel, and every channel its buffer |
| `InMemoryPubSub.WritersExcludeReaders` | internal/pubsub/pubsub.go:41-86 | Subscriptions change, and the bus closes, only while no publisher is in its loop |
| `InMemoryPubSub.LockCanBeHad` | internal/pubsub/pubsub.go:40-55 | From every state of every run the publishers in their loops can finish, with nothing received meanwhile |
| `InMemoryPubSub.CallsAreRuns` | internal/pubsub/pubsub.go:40-97 | Any sequence of whole calls of Publish, Subscribe, unsub and Close leads to a state some run of the machine reaches |
| `InMemoryPubSub.PubSubBus.Publish` | internal/pubsub/pubsub.go:40-55 | Refused exactly on a closed bus; otherwise the state of a whole publisher loop |
| `InMemoryPubSub.PubSubBus.Subscribe` | internal/pubsub/pubsub.go:57-80 | Refused exactly on a closed bus; otherwise a fresh, open, empty channel is registered |
| `InMemoryPubSub.PubSubBus.Unsub` | internal/pubsub/pubsub.go:68-78 | The machine's step, panicking exactly when that step does |
| `InMemoryPubSub.PubSubBus.CloseAll` | internal/pubsub/pubsub.go:83-97 | The nested loops close exactly the open channels, each once and without panic, and empty the subscriptions |
| `InMemoryPubSub.PubSubBus.Drain` | internal/subscribers/subscribers.go:29-40 | A consumer receives everything buffered, in order, and then finds the channel empty |
| `Subscribers.StopIsExact` | internal/subscribers/subscribers.go:44-50 | Calling each unsub once never panics, takes exactly the starter's channels out of every topic, closes exactly those still open, and after Close changes neither subscriptions nor channels |
| `Subscribers.StopUndoesOn` | internal/subscribers/subscribers.go:22-50 | On for any list of topics, repeats included, then stop: the subscription map is restored, every created channel is closed, every other channel untouched |
| `Subscribers.StopAfterAnything` | internal/subscribers/subscribers.go:22-50 | The same for exactly the starter's channels after any publishes, subscribes, other unsubs and Close in between |
| `Subscribers.Starter.On` | internal/subscribers/subscribers.go:22-41 | One more unsub is remembered, of a fresh channel on the topic; on a closed bus nothing changes |
| `Subscribers.Starter.Stop` | internal/subscribers/subscribers.go:44-50 | The loop has the effect of calling each unsub once, without panic |
| `Subscribers.Start` | internal/subscribers/subscribers.go:53-60 | On an open bus exactly one of the starter's five channels is open on each of the five topics, named here; on a closed bus nothing changes |
| `Subscribers.StartThenStop` | internal/subscribers/subscribers.go:53-60 | Start followed by the function it returns restores the subscriptions, and leaves a closed bus as it is |
| `TunnelManager.KeyInjective` | internal/tunnel/manager.go:51 | Host and port can be read off a store key for every host string, colons and brackets included, and every integer port |
| `TunnelManager.EntriesAreTheProxiedPairs` | internal/tunnel/manager.go:35-62 | After any sequence of calls, Stops and failures a pair is in the store, with its own configuration, if and only if its last operation was ProxySSH |
| `TunnelManager.EveryEntryHasAPair` | internal/tunnel/manager.go:51-58 | Nothing else is in the store |
| `TunnelManager.KeyFormat` | internal/tunnel/manager.go:51 | The keys as written, for an IPv4 and an IPv6 host |
| `TunnelManager.CallsSupervise` | internal/tunnel/manager.go:64-99 | The first proxy starts one new client, the last to go stops the current one, any other change leaves it running; an accepted push is the new store in the order of visit |
| `TunnelManager.StopStopsTheClient` | internal/tunnel/manager.go:101-109 | Stop ends the context `m.cancel` belongs to and no other, forgets it, and leaves store and pushed list alone; with one live context none is left |
| `TunnelManager.FailureForgetsCancel` | internal/tunnel/manager.go:79-82 | A failed client's context is not live any more, and `m.cancel` is nil whatever client it belonged to |
| `TunnelManager.CancelMeansProxies` | internal/tunnel/manager.go:64-109 | Between calls a set `cancel` means there are proxies, whatever Stops and client failures, stale or early ones included |
| `TunnelManager.RunningExactlyWithProxies` | internal/tunnel/manager.go:74-98 | Right after ProxySSH or UnProxy `cancel` is set if and only if there are proxies |
| `TunnelManager.OneRunKeptExactly` | internal/tunnel/manager.go:77-85 | A step keeps "one live context exactly while `cancel` is set" if and only if it is not a stale failure, nor a failure before `cancel` is assigned |
| `TunnelManager.OneRunThroughout` | internal/tunnel/manager.go:74-109 | So it holds throughout every run whose failures are of the current client |
| `TunnelManager.StaleFailureLeaks` | internal/tunnel/manager.go:78-83 | A run with a stale failure after which two contexts are live |
| `TunnelManager.PushedIsTheStore` | internal/tunnel/manager.go:65-72 | While `cancel` is set the list last pushed is the store's values, each key's once, if every push is accepted |
| `TunnelManager.ListingsAgree` | internal/tunnel/manager.go:66-69 | Any two iteration orders push the same multiset of configurations |
| `TunnelManager.ListingHas` | internal/tunnel/manager.go:66-69 | The listing is the store's values, one for each key visited, in that order |
| `TunnelManager.Manager.ProxySSH` | internal/tunnel/manager.go:35-55 | The event's effect on store, supervisor and pushed list |
| `TunnelManager.Manager.UnProxy` | internal/tunnel/manager.go:57-62 | The event's effect on store, supervisor and pushed list |
| `TunnelManager.Manager.Update` | internal/tunnel/manager.go:64-99 | The start, reload and stop cases |
| `TunnelManager.Manager.Reload` | internal/tunnel/manager.go:65-72 | The loop pushes the store's values in the order of visit |
| `TunnelManager.Manager.Stop` | internal/tunnel/manager.go:101-109 | A set `cancel` is called, so that its context is live no more, and cleared; nothing else changes |
| `TunnelRaces.PanicsExactlyWhenClearedInBetween` | internal/tunnel/manager.go:101-109 | With any number of calls and failing clients interleaved, a run panics if and only if some Stop finds `m.cancel` set, somebody else sets it to nil before the call, and nobody sets it again in time |
| `TunnelRaces.OneAtATimeNeedsFailure` | internal/tunnel/manager.go:79-109 | With calls one at a time and no client failing, no run panics |
| `TunnelRaces.FailureDuringStopPanics` | internal/tunnel/manager.go:79-107 | A run in which a client fails in the middle of a Stop and the Stop calls nil |
| `TunnelRaces.LeaksExactly` | internal/tunnel/manager.go:75-109 | A step leaves a live context that nothing will cancel if and only if it writes `m.cancel` while the context it cancels is live |
| `TunnelRaces.NeverLeaksExactly` | internal/tunnel/manager.go:75-109 | A run never has such a context if and only if it has no such step |
| `TunnelRaces.OverlappingProxiesLeak` | internal/tunnel/manager.go:75-86 | Two overlapping first ProxySSH calls leave two clients running, only one of which can be stopped |
| `TunnelRaces.ClientsFailOnce` | internal/tunnel/manager.go:78-84 | A client fails and clears `m.cancel` once at most, and its context is dead from its failure on |
| `TunnelRaces.EventIsRun` | internal/tunnel/manager.go:35-109 | Each event of `TunnelManager` is a run of that call's own single steps between two quiet states |
| `CommandManager.KeysAreIds` | internal/remote_commands/command_manager.go:66-94 | In every interleaving of any adders and removers the store's keys are the IDs of the commands held, and each of these has a context |
| `CommandManager.LostExactly` | internal/remote_commands/command_manager.go:66-94 | A step makes a spawned, uncancelled command unreachable in the store if and only if it stores over an active command, removes one, or starts one that is neither stored nor cancelled |
| `CommandManager.NoOverlapLosesNothing` | internal/remote_commands/command_manager.go:66-94 | With any number of adders and removers, as long as no two adds and no two removes of one ID overlap, every spawned command is in the store under its ID or cancelled, and at most one uncancelled one exists per ID |
| `CommandManager.AddersAndRemoversLoseNothing` | internal/remote_commands/command_manager.go:66-94 | In particular with one adder and one remover, interleaved at each step |
| `CommandManager.TwoAddersLose` | internal/remote_commands/command_manager.go:66-79 | Two overlapping adds of one ID leave an active command outside the store |
| `CommandManager.TwoRemoversLose` | internal/remote_commands/command_manager.go:81-94 | Two overlapping removes with an add in between take an active command out uncancelled |
| `CommandManager.AddAlone` | internal/remote_commands/command_manager.go:66-79 | An uninterrupted AddCommand stores and starts the command, or does nothing if the ID is taken |
| `CommandManager.RemoveAlone` | internal/remote_commands/command_manager.go:81-94 | An uninterrupted RemoveCommand cancels and removes the stored command |
| `CommandManager.Commands.AddCommand` | internal/remote_commands/command_manager.go:66-79 | The code has the effect of the machine's four steps |
| `CommandManager.Commands.RemoveCommand` | internal/remote_commands/command_manager.go:81-94 | Error exactly when the ID is absent; otherwise cancelled and removed |
| `CommandManager.Commands.Stop` | internal/remote_commands/command_manager.go:125-139 | If the drains succeed the store ends empty, exactly the held commands are cancelled and "command not found" is never returned; if one fails nothing is removed |
| `MqttTopic.Index` | internal/server/server.go:105 | The result is an occurrence of the needle, or -1 |
| `MqttTopic.IndexIsFirst` | internal/server/server.go:105 | No occurrence is missed or comes before the one found |
| `MqttTopic.NormalizeReplacesFirst` | internal/server/server.go:100-110 | For every topic and thing the first occurrence of `/things/` and the thing becomes `/things`; without one, or with an empty thing, the topic is left alone |
| `MqttTopic.NormalizeCutsSegments` | internal/server/server.go:100-110 | For every topic and every non-empty slash-free thing, string normalisation is the segment-level cut after the first `things`, not segment 0, followed by a segment that starts with the thing |
| `MqttTopic.NormalizeDeletesExactly` | internal/server/server.go:96-110 | It deletes the thing's segment as documented if and only if the first segment found by prefix is the thing itself |
| `MqttTopic.LongerNameIsCut` | internal/server/server.go:96-106 | A topic of device10 normalised for device1 is mangled |
| `MqttTopic.NormalizeUndoesForThing` | internal/server/server.go:96-110 | Putting any device name after the first `things` of a topic and normalising gives the topic back |
| `MqttTopic.DeviceTopicIsNormalized` | internal/server/server.go:96-110 | `front/things/NAME/kind/last` becomes `front/things/kind/last`, for any such names |
| `MqttTopic.DocumentedExamples` | internal/server/server.go:97-99 | The two examples of the documentation |
| `Webhook.ApiServer.HandleWebhook` | internal/server/server.go:51-94 | Which status is returned when; exactly an accepted request publishes, on the normalised topic |
| `Webhook.DeviceMessageReachesSubscribers` | internal/server/server.go:79-86 | A message on any device's version of a topic is offered to every subscriber of the topic and to nobody else |
| `Wiring.DeviceMessageReachesStarter` | internal/server/server.go:79-86 | A message posted on any device's own version of the certificates, commands or either tunnels topic is put last in the channel Start subscribed to that topic, unless 64 wait there |
| `Release.StripRefOf` | release.sh:54 | Both forms of a tag's ref give the tag |
| `Release.LineOrder` | release.sh:55-56 | For components up to 999 the keyed lines sort as the versions do |
| `Release.PicksGreatestExactlyTo999` | release.sh:51-59 | Every sorted output's last line is the numerically greatest tag for all lists with components up to a bound, if and only if the bound is at most 999 |
| `Release.NextTagIsNew` | release.sh:61-90 | For every bump the next tag is that of the least version that outranks every listed one at that level, and it is not among them |
| `Release.FirstRelease` | release.sh:61-90 | Without tags the first release is v0.0.1, v0.1.0 or v1.0.0 |
| `Text.DecimalHasNoLeadingZero` | release.sh:89-90 | Numbers are printed without leading zeros |
| `Release.TagFormat` | release.sh:89-90 | A tag as written |
| `Release.ComputeNextTag` | release.sh:66-90 | The script's reassignments compute that tag |
| `SudoArgs.OutputReadsBack` | scripts/install.sh:19-29 | For every argument list a POSIX shell reads one word for each argument: nothing for one that `echo` takes for options, otherwise the argument without the newlines at its end |
| `SudoArgs.OutputFormat` | scripts/install.sh:25 | The output itself, with a quote and an empty argument in it |
| `SudoArgs.FlagsComeBack` | scripts/install.sh:25 | `-t` comes back as itself, `-n` as the empty word |
| `SudoArgs.RoundTripExactly` | scripts/install.sh:19-29 | It reads back the very argument list if and only if no argument ends in a newline or is an `echo` option |
| `SudoArgs.BuildSudoArgs` | scripts/install.sh:19-29 | The shift loop prints that output, which reads back so |

## Left out

- Cryptography, certificates, keys and configuration files: library behaviour.
- Network, PTY, ioctl, NATS and HTTP plumbing: accepts, handshakes, exits and failures are freely chosen steps.
- `parseDims` and `setWinsize`: they touch no shared state.
- `sshServerController.Start`: it stores no config, so Run could not serve after it; Prepare followed by Run is modelled.
- SessionManager.Manager.BroadcastAndClose: the text of the announcement, and how long the grace period is.
- Liveness and time: the 12 hour lifetime, blocked writes to a session's stderr, starvation on a lock.
- SshServerProofs.ClosedExactlyWhenListedAtLock: assumes no connection is accepted at an address whose last connection is uncleaned or still served, which nothing enforces; `ClosedExactlyWhenInTableAtLock` and the other SSH theorems assume nothing of addresses.
- InMemoryPubSub.PubSubBus.CloseAll: channels are numbers in a map of the bus rather than separate heap objects.
- Subscribers.StopIsExact: its unsubs follow each other without another goroutine in between; `UnsubIsFinal` covers each unsub in any interleaving.
- InMemoryPubSub.PubSubBus.Drain: handlers are not modelled; since their panics are recovered, they do not affect the loop.
- The subscriber bodies: they log, or call manager methods that `manager.go` does not define.
- CommandManager.Commands.Stop: no add or other remove is concurrent with it.
- `Command.Start` and `Command.Stop` beyond the context: the SSH handler, and pairing its UnProxy with the earlier ProxySSH, which asks a listener already cleared for its port.
- TunnelManager.EntriesAreTheProxiedPairs: its events, like those of the other `TunnelManager` results, are whole calls one after the other; `TunnelRaces` has the interleavings of single accesses, for `m.cancel` and the live clients.
- TunnelRaces.PanicsExactlyWhenClearedInBetween: a read or write of `m.cancel` is atomic; Go's memory model promises less for one without a lock.
- TunnelManager.PushedIsTheStore: assumes the client accepts every push; how the client treats configurations of equal name is not modelled.
- MqttTopic.NormalizeCutsSegments: things that contain a slash span segments and are outside it; `NormalizeReplacesFirst` covers them.
- Release.PicksGreatestExactlyTo999: tags are canonical vX.Y.Z; pre-release suffixes, leading zeros and locale collation are not modelled.
- SudoArgs.OutputReadsBack: bash's `echo` without `xpg_echo`; unquoted operators, expansions and globs make the reading undefined here, since the output has none.
- The rest of the scripts: downloads, systemd, tagging and pushing.
