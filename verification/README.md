# A verified model of the plugin library's protocols

The library runs plugins as child processes and talks to them over one connection. This project
models its concurrent and stateful core in Dafny and proves what each part promises, in every
interleaving and for every input.

| file | what it models |
|---|---|
| `Broker.dfy`, `BrokerSafety.dfy`, `BrokerPanic.dfy`, `BrokerEnds.dfy`, `BrokerObject.dfy` | one side's `GRPCBroker`: Run, timeoutWait, Dial, knock, muxDial, Accept, listenForKnocks |
| `Transport.dfy` | the two streamers and the gRPC stream between them |
| `BrokerPair.dfy`, `BrokerCalls.dfy` | a host broker and a plugin broker, joined by the transport |
| `PluginRouting.dfy`, `PluginWedge.dfy`, `PluginDoor.dfy` | the multiplexed broker with the plugin listening, and `GRPCServerMuxer` |
| `HostRouting.dfy` | the multiplexed broker with the host listening, and `GRPCClientMuxer` |
| `Muxers.dfy` | the two muxers as objects |
| `MuxBroker.dfy`, `MuxBrokerSafety.dfy`, `MuxBrokerFate.dfy`, `MuxBrokerObject.dfy` | the net/rpc `MuxBroker` |
| `Lifecycle.dfy`, `LifecycleSafety.dfy`, `LifecycleFate.dfy`, `LifecycleObject.dfy` | Start, Kill, the goroutines of a launch and the managed list |
| `Negotiation.dfy`, `Handshake.dfy`, `Text.dfy` | version negotiation, the handshake line, Start's reading of it, reattaching |
| `StderrPump.dfy`, `Stdio.dfy` | the stderr log pump, and the stdio chunk, merge and demultiplex path |
| `Basics.dfy` | Option, Result and counting in sequences |

## How concurrency is modelled

A step is one lock region or one channel operation. A run is a sequence of steps that are enabled
one after the other, so "for every run" means for every scheduler. A timeout is a step that may
always be taken. A pending entry is named by its place in an arena, because goroutines keep using an
entry after the tables have forgotten it. The class of the same part has the source's fields and the
place of every goroutine; each of its methods states its effect on the fields outright, keeps the model's invariant and takes
exactly one step of the model, and its `Drive` takes the object through any run and states the results of its fields.

Assumed of the code outside the model: yamux delivers opened streams first in, first out; a gRPC
stream delivers the messages whose Send succeeded, in order, and none whose Send failed.

## Results a caller should know

- A knocked stream is never misrouted by timeouts, lost knocks or failed dials. What they can do is
  wedge the plugin's door for all ids: after a dial that fails past its ack, or an ack that is lost, no
  dial of any id is admitted until somebody dials without knocking. `AdmitsExactlyWhenLive` says exactly
  when an open door can still let a dialer in.
- On the host side the documented rule (client.go:292-294: after one AcceptAndServe, wait for the other
  side to Dial before the next) does not keep streams apart: `DocumentedOrderSwaps` is a run that keeps
  it and swaps two. Waiting until every knock for another id was refused, dropped, or has had its stream
  accepted does.
- The comment on `GRPCMuxer.AcceptKnock` (internal/grpcmux/grpc_muxer.go:33-35) promises an error for an
  id without a listener. The server muxer never looks (internal/grpcmux/grpc_server_muxer.go:202-205).
  The model follows the code. Accept starts listening for knocks before it registers its listener
  (grpc_broker.go:307-315), so a stream whose knock was admitted can find no listener and is closed: the
  accept loop routes it next, and closes it if and only if the id has no listener by then
  (`KnockedStreamIsNext`, `ListenerTooLate`).
- The accept loop waits without a timeout for the listener it has looked up
  (internal/grpcmux/grpc_server_muxer.go:146). If that listener no longer accepts, as after its Close, no
  stream of any id is routed any more (`StuckExactlyWhenHandingOver`).
- Two Dials, or two Accepts, that read one entry bring the process down; nothing else does. A caller who
  never dials (or accepts) an id that is being dialled or was served is safe, whatever the peer sends.
- A stream queued in a `MuxBroker` slot that was read before can stay there for good; no other can.
- A listener of a multiplexed broker that is closed before its goroutine has fetched an entry
  (grpc_broker.go:307-313, 429) leaves that goroutine waiting on an entry that no Close marks
  (`ClosedTooEarly`, `ListeningEndsExactlyWhenClosable`). Every call of Dial, Accept, Start and Kill can
  always end.
- A Kill after a `runner.Start` that failed spends the once-only gate, so a plugin started afterwards by
  the same client is never killed (`UnkillableRestart`).
- A Start that fails after the version check leaves that version's plugin set in `Plugins`, so the next
  Start may offer one version more (`StartAgain`).
- Start returns an address together with an error exactly when it refuses the protocol.
- A version with an empty plugin set is announced with the transport of a newer version
  (`TransportMatchesSet`, `EmptySetInheritsTransport`).
- A server certificate for a client without a TLS configuration makes Start panic; the plugin is still
  killed (`Handshake.Client.Start`).

## Model

| member | source | states |
|---|---|---|
| `PluginRouting.KnockedStreamsReachTheirListener` | internal/grpcmux/grpc_server_muxer.go:124-155 | in every run of both processes in which un-knocked dials and knocks do not overlap (an un-knocked dial starts once every knock has opened its door or was dropped and an open door has its stream waiting), a stream opened after knock(id) goes to listener id, and is closed exactly if the id had no listener when the loop looked, which never happens if doors are opened only for registered listeners; an un-knocked one goes to the default listener, and at most one knocked stream is ever unrouted |
| `PluginDoor.KnockedStreamIsNext` | internal/grpcmux/grpc_server_muxer.go:130-154 | at every state of the invariant, an unrouted knocked stream is at the head of the line with the door open for its id, and the accept loop routes it next: to its listener if the id has one, and otherwise it closes it |
| `PluginDoor.DialsAreRouted` | internal/grpcmux/grpc_server_muxer.go:124-155 | for every id, a run in which the stream dialled for the id goes to its listener and is handed over, and an un-knocked one after it to the default listener |
| `PluginDoor.ListenerTooLate` | grpc_broker.go:307-315 | for every id, a run in which a stream is closed although its knock was admitted, because Accept had started to listen for knocks and had not registered its listener yet |
| `PluginRouting.InvariantStep` | grpc_broker.go:428-523 | every step keeps the global ordering invariant: for each id the one-slot knock channel balances streams opened and unrouted, the admitted dialer, admissions on their way and failed dials |
| `PluginDoor.PlainDialTakesTheDoor` | internal/grpcmux/grpc_server_muxer.go:130-154 | at every state of the invariant with a door open, one un-knocked dial is taken by that door (its listener, or closed) if and only if no knocked stream is unrouted, and otherwise goes to the default listener |
| `PluginDoor.PlainDialBeforeTheDoorOpens` | internal/grpcmux/grpc_server_muxer.go:133-153 | for every id, a run in which an un-knocked dial during an unanswered knock is taken by the door the knock then opens |
| `PluginDoor.KnockAfterPlainDial` | internal/grpcmux/grpc_server_muxer.go:133-153 | for every id, a run in which a knock sent while an un-knocked stream is unrouted opens a door that this stream takes |
| `PluginDoor.StuckExactlyWhenHandingOver` | internal/grpcmux/grpc_server_muxer.go:144-147 | at every state, if nobody takes the stream that the loop is handing over, some run routes a stream if and only if the loop is not handing one over |
| `PluginDoor.OneListenerGoneStopsAll` | internal/grpcmux/grpc_server_muxer.go:144-147 | for every id, a run after which no stream of any id is routed again if the listener that was looked up has stopped accepting |
| `PluginWedge.AdmitsExactlyWhenLive` | grpc_broker.go:428-523 | with the door open and nothing on its way through it, some run without un-knocked dials admits a dialer if and only if an admission is left that can still be read: about to be sent or on the wire while Run runs, in Run's hand, or in a slot a dialer can come to read |
| `PluginWedge.WedgedForever` | internal/grpcmux/grpc_server_muxer.go:202-205 | if none is left, in every run without un-knocked dials no stream is routed and no dial of any id is admitted |
| `PluginWedge.FailedDialWedges` | grpc_broker.go:511-519 | whenever a dial failed after its ack the door is open for its id and wedged |
| `PluginWedge.OpenStep` | grpc_broker.go:428-503 | every step but an un-knocked dial and an admission keeps an open door as it is |
| `PluginDoor.OneFailedDialWedgesTheDoor` | grpc_broker.go:505-523 | for every id, a run with a single failed dial ends with the door wedged |
| `PluginDoor.OneLostAckWedgesTheDoor` | grpc_broker.go:443-461 | for every id, a run in which no dial fails and an ack that cannot be sent wedges the door |
| `HostRouting.SequentialStreamsReachTheirListener` | internal/grpcmux/blocked_client_listener.go:31-51 | if every knock waits until the knocks for other ids are refused, dropped or have had their streams accepted, every accepted stream was opened for the id it was accepted on, and every queued one has a token or an Accept with a token of its own id |
| `HostRouting.InvariantStep` | internal/grpcmux/grpc_client_muxer.go:72-101 | every step keeps the token and stream accounts of every id, and only knocks for the latest id are unsettled |
| `HostRouting.AstrayExactlyWithARival` | internal/grpcmux/blocked_client_listener.go:31-38 | at every state, the next stream can be handed at once to a listener it was not opened for if and only if another id than the queue's head has a token or an Accept with one |
| `HostRouting.DialIsAccepted` | internal/grpcmux/blocked_client_listener.go:31-38 | for every id, a run in which the listener of the id accepts the stream dialled for it |
| `HostRouting.DocumentedOrderSwaps` | client.go:292-294 | for any two ids, a reachable run that keeps the documented rule gives each listener the other's stream |
| `BrokerSafety.SafeStep` | grpc_broker.go:428-681 | every step of every goroutine keeps the whole invariant: keys and slots by role and id, an owner for each entry, the knock accounts, and where every dialled address came from |
| `BrokerSafety.NoEntryLeaks` | grpc_broker.go:668-681 | in every run the table of pending dials is empty whenever no timeoutWait, waiting Dial, waiting knock or delivery is active |
| `BrokerSafety.ImpossibleChecks` | grpc_broker.go:432-441 | for any messages from the peer, the two "shouldn't be possible" checks of listenForKnocks never fail |
| `BrokerPanic.FreshReadsNeverPanic` | grpc_broker.go:538-541 | for any messages from the peer, no run in which no entry is read twice panics |
| `BrokerPanic.NewDialsNeverPanic` | grpc_broker.go:535-550 | no run in which Dial(id) is called only while no Dial(id) is under way or has received an address panics, for any messages from the peer |
| `BrokerPanic.DialingEachIdOnceNeverPanics` | grpc_broker.go:535-550 | in particular none in which each id is dialled at most once |
| `BrokerPanic.PanicsExactlyOnSecondRead` | grpc_broker.go:540-541 | at every safe state, Dials that go on from where they are close a done channel twice if and only if some entry was read twice |
| `BrokerPanic.TwoDialsOnOneEntryPanic` | grpc_broker.go:538-541 | for every id, a run in which this happens |
| `BrokerEnds.CallsCanAlwaysEnd` | grpc_broker.go:481-550 | in every run that has not panicked, some continuation ends every Dial and knock and leaves no pending entry |
| `BrokerEnds.ListeningEndsExactlyWhenClosable` | grpc_broker.go:428-465 | at every safe state, without another Accept or knock, a goroutine that waits for knocks can end if and only if its entry is done or some listener's Close marks it |
| `BrokerEnds.ClosedTooEarly` | grpc_broker.go:307-333 | for every id, a run in which the goroutine of a closed listener can never end without another Accept or knock |
| `BrokerEnds.StreamEnds` | grpc_broker.go:592-598 | whenever Run waits for a message the stream may end, and it then receives nothing in any continuation |
| `BrokerPair.KnockAccounting` | grpc_broker.go:428-503 | in every pair of linked runs, successful knocks of an id never outnumber the peer's successful AcceptKnock calls, nor those the knocks sent |
| `BrokerPair.AddressesComeFromThePeer` | grpc_broker.go:342-364 | a Dial(id) only ever uses an address the other side's Accept(id) listens on, translated exactly once, by the host, in the direction of travel |
| `BrokerPair.BrokersOnStreamersAreLinked` | grpc_broker.go:592-598 | in every run of two brokers on their streamers each broker is in a state one of its interleavings reaches, and has received a prefix of what the other sent |
| `BrokerPair.KnocksOnStreamers` | grpc_broker.go:428-503 | the knock accounts hold in every such run, in both directions |
| `BrokerCalls.AcceptMeetsDial` | grpc_broker.go:342-364 | for every id, address and pair of translators, in both directions and whichever is called first, a run through both streamers from Accept(id) to the peer's Dial(id): the announced address is sent once, and the Dial connects to it, translated, if that is a tcp or unix address, and otherwise to nothing |
| `BrokerCalls.HostReachesPlugin` | grpc_broker.go:535-573 | for every id and every address that the translator maps to a tcp or unix one, the host's Dial(id) connects to that |
| `BrokerCalls.PluginReachesHost` | grpc_broker.go:342-364 | the same for the plugin's Dial(id) and the host's listener |
| `BrokerCalls.KnockEnds` | grpc_broker.go:428-503 | for every id, both directions and every answer of the muxer, a run through both streamers in which the knock reaches its listener, the answer reaches the dialer, and it is admitted if and only if the answer is no error |
| `BrokerCalls.Passes` | grpc_broker.go:69-138 | a message that a broker sends on calm streamers reaches the peer's Run, and its Send returns without an error |
| `Broker.GetClient` | grpc_broker.go:634-648 | entries are only added and never re-keyed, and the tables stay well formed with an entry for the id |
| `Broker.GetServer` | grpc_broker.go:652-666 | the same for the table of listeners |
| `Transport.ReceivedIsAPrefix` | grpc_broker.go:69-102 | across any concurrent senders and any close, what each Run received is a prefix of what the peer put on the stream |
| `Transport.SendGetsItsOwnResult` | grpc_broker.go:106-120 | on either side, a Send that returned a result had its own message written exactly once with that result, one told "broker closed" had nothing written; no reply meets a closed reply channel and quit is closed once |
| `Transport.NoSendIsStranded` | grpc_broker.go:214-228 | on either side, a Send that was taken always has the sender at work on it, and once quit is closed or the receive loop is gone every Send still waiting to be taken may leave |
| `Transport.QuitExactlyWhenShut` | grpc_broker.go:69-138 | in every run a side's quit channel is closed if and only if Close was called, a read failed or the receive loop left, and then once; every Send not yet taken, the writing goroutine and the receive loop may then leave |
| `MuxBrokerSafety.StreamsAreConserved` | mux_broker.go:141-220 | in every run each stream Run accepted is in exactly one place: held by Run, in one slot, with one Accept, or closed once |
| `MuxBrokerSafety.NothingLeftBehind` | mux_broker.go:195-220 | at every safe state, once all timeoutWaits and Accepts are done no key is left, and a stream is queued only in a slot that was read before |
| `MuxBrokerFate.TimelyStreamsAreNotStranded` | mux_broker.go:157-164 | if no stream was queued in a slot that had been read before, no stream is left queued |
| `MuxBrokerFate.StrandedExactlyWhenLate` | mux_broker.go:195-219 | from every safe state: if the slot of a queued stream was read before, some run ends with all quiet and the stream in its slot in every continuation; otherwise no run reaches a state from which it always stays |
| `MuxBrokerFate.SomeStreamIsStranded` | mux_broker.go:199-219 | for every id, a run after which a stream can end in its slot for good |
| `MuxBrokerFate.FreshTakesNeverPanic` | mux_broker.go:58-59 | no run in which no entry is read twice panics |
| `MuxBrokerFate.TimelyRunsNeverPanic` | mux_broker.go:157-164 | runs without late streams are among them |
| `MuxBrokerFate.NewAcceptsNeverPanic` | mux_broker.go:54-66 | no run in which Accept(id) is called only while no Accept(id) is waiting or has received a stream panics, for any streams from the peer |
| `MuxBrokerFate.AcceptingEachIdOnceNeverPanics` | mux_broker.go:54-66 | in particular none in which each id is accepted at most once |
| `MuxBrokerFate.PanicsExactlyOnSecondRead` | mux_broker.go:58-59 | at every safe state, Accepts that go on from where they are close a done channel twice if and only if some entry was read twice |
| `MuxBrokerSafety.AcksMatch` | mux_broker.go:54-75 | Accept(id) acknowledges and returns only streams whose dialer wrote id |
| `MuxBrokerFate.AckDecides` | mux_broker.go:68-74 | in every run, an Accept whose ack was written has its stream for good, open and opened for its id; one whose ack could not be written has failed for good, and its stream is closed, once |
| `MuxBrokerFate.AcceptIsServed` | mux_broker.go:54-75 | for every id, and whether Accept or the stream comes first, a run in which Accept(id) returns the open stream whose dialer wrote id |
| `MuxBrokerFate.CallsCanAlwaysEnd` | mux_broker.go:54-66 | in every run that has not panicked, some continuation ends every Accept and timeoutWait and leaves no key |
| `MuxBrokerFate.UnreadableIsClosed` | mux_broker.go:149-154 | at every safe state, a stream whose id cannot be read is closed, once, and in no continuation in a slot or with an Accept |
| `MuxBrokerFate.TwoAcceptsOnOneEntryPanic` | mux_broker.go:58-59 | for every id, a run in which two Accepts served from one entry close its done channel twice |
| `MuxBrokerSafety.SafeStep` | mux_broker.go:54-220 | every step keeps keys and headers, conservation, ownership, the draining of slots and who has read them |
| `LifecycleSafety.WaitsAfterReaders` | client.go:877-941 | in every run with any number of launches, runner.Wait begins only after both pipe readers of its launch are done, and every cancelled context was cancelled by a waiter that captured it, after both readers of its launch were done and it had set exited |
| `LifecycleSafety.ExitedArmIsDead` | client.go:961-965 | in every run Start's "plugin exited before we could connect" arm is never ready |
| `LifecycleSafety.KillRunsOnceAndCleansUp` | client.go:571-676 | for any interleaving of Kill and Start callers the kill body runs at most once; when it has cleaned up, the launch it found is exited if it was ever started, any runner left is a later one, and the client is off the managed list |
| `LifecycleSafety.KillAfterOneLaunch` | client.go:603-624 | with one launch a finished kill leaves the client exited, without a runner and off the list |
| `LifecycleFate.FailedStartsAreKilled` | client.go:864-875 | in every run, every plugin that was started and whose Start is over was killed, unless that Start recorded an address; then no launch follows it |
| `LifecycleFate.WholeLife` | client.go:571-954 | for every client, a run in which Start records an address and leaves the plugin alive, the plugin exits gracefully or is killed by force, and Kill leaves no runner, no goroutine and the list as it was before the client |
| `LifecycleFate.FailedLife` | client.go:864-875 | and one in which Start fails, the plugin is killed and there is no address |
| `LifecycleFate.EarlyKillsKeepTheGate` | client.go:577-582 | until a Start has a runner, any number of Kills leave the gate fresh and nobody waiting at it |
| `LifecycleFate.KillReturnsAfterTheBody` | client.go:583 | in every run, a Kill that waited for another one's body returns only once that body has ended and cleaned up |
| `LifecycleFate.NothingIsStuck` | client.go:571-954 | in every run with any number of Start and Kill callers, some continuation ends Start, every goroutine and every Kill |
| `LifecycleSafety.WithoutSplits` | client.go:419-428 | removing a client from the list takes out its first occurrence and leaves everybody else in order |
| `LifecycleSafety.WithoutDistinct` | client.go:504-508 | in a list without duplicates the removed client is gone and every other one stays |
| `LifecycleSafety.KilledExactlyWhenTheGateIsOpen` | client.go:571-601 | at every safe state with a named runner whose Start is over, some run kills its plugin (and Kill's own steps do) if and only if the gate is fresh, the body has yet to look at c.runner, or it is stopping that plugin; a spent gate kills nobody |
| `LifecycleSafety.UnkillableRestart` | client.go:857-862 | a reachable run, first Start failing in runner.Start and killed, after which the started plugin is never killed in any continuation |
| `LifecycleSafety.SafeStep` | client.go:571-954 | every step keeps both wait groups equal to what they count, the order of each launch, who cancelled what, the gate and the list |
| `Negotiation.EnvRoundTrip` | client.go:754-764 | the server reads back exactly the version list the client wrote |
| `Negotiation.EnvReadsExactly` | server.go:155-164 | for every value of the variable, the server sees exactly the decimal numbers among its comma-separated entries that fit an int |
| `Negotiation.Choose` | server.go:188-220 | the loop ends on the largest common version, else the lowest of the server, else the handshake's; the transport is that of the nearest non-empty set from there upwards |
| `Negotiation.ServeConfig.ProtocolVersion` | server.go:149-221 | the same for every environment string, configuration and iteration order, with Plugins filed in place and the set returned with its version |
| `Negotiation.ServeConfig.FilePlugins` | server.go:171-178 | Plugins replace what the table has under ProtocolVersion, and nothing else changes |
| `Negotiation.SortReverse` | server.go:185 | the distinct keys in descending order, none lost |
| `Negotiation.NegotiationAgrees` | server.go:188-220 | for all tables and iteration orders: with a shared version the answer is the largest shared one, and otherwise it is never in the client's table |
| `Negotiation.TransportMatchesSet` | server.go:195-207 | the announced transport is the chosen set's own exactly when the set is not empty or the nearest non-empty one above is not gRPC |
| `Negotiation.EmptySetInheritsTransport` | server.go:195-207 | for any two versions, the older without plugins and the newer with a gRPC one, protocolVersion gives a client that has only the older one an empty set over gRPC |
| `Text.AtoiItoa` | client.go:754-757 | decimal conversion of every Go int is undone by parsing it |
| `Text.AtoiExactly` | client.go:1176-1179 | exactly the decimal numbers that fit an int are read, with their value |
| `Text.SplitJoin` | client.go:763 | splitting undoes joining when no field has the separator |
| `Text.JoinSplit` | client.go:970 | splitting loses nothing |
| `Text.TrimSpaceExactly` | client.go:969 | trimming takes the blanks at both ends, and all of them |
| `Text.Decode64Encode64` | server.go:354 | unpadded base64 of section 4 of RFC 4648 is undone by decoding, for all bytes |
| `Text.DecodesExactly` | client.go:1080-1083 | exactly text of letters and of a length that bytes encode to can be decoded |
| `Text.LettersInOrder` | server.go:354 | the letters are the alphabet of section 4 of RFC 4648 |
| `Handshake.LineRoundTrip` | server.go:440-462 | for fields free of separators and line breaks, parsing the first line of stdout returns every field, six of them or seven with multiplexing |
| `Handshake.Client.constructor` | client.go:463-503 | a new client has its configuration, no address and no version |
| `Handshake.Client.CheckProtoVersion` | client.go:1175-1197 | succeeds exactly for a readable version in the table, with that version's set; a refusal lists all versions |
| `Handshake.Client.ResolveEndpoint` | client.go:1013-1031 | the address is translated first; a unix address is then resolved as unix, a tcp one as tcp, and one of any other network, or without a translation, is refused |
| `Handshake.Client.ReadHandshake` | client.go:966-1068 | for every line and order, with the named results and the err that shadows one of them: an early return exactly on unacceptable lines, a panic exactly for a certificate without a TLS configuration, an address with the error exactly when only the protocol is refused, and the version and set recorded exactly when the version check passes |
| `Handshake.Client.Start` | client.go:864-1072 | for every first event: the plugin is killed if and only if the named error is set or Start panics, and an address is recorded if and only if neither; address a is recorded exactly for a line whose parts say so, part by part (core version 1, a version of the table, an address that resolves to a, an allowed protocol with "netrpc" for four parts, a sixth part over 50 characters that decodes to a certificate, a seventh that is a true boolean if multiplexing was asked for); an address comes with an error exactly when the protocol is refused; a failure leaves the version and set of a line that passed the version check, and otherwise the old ones |
| `Handshake.Client.FilePlugins` | client.go:744-752 | Plugins join the table under ProtocolVersion unless that is taken, and nothing else changes |
| `Handshake.SharedVersionConnects` | client.go:966-1067 | the line a server prints for a client that shares a version with it is accepted, on the largest shared version, the server's own address as translated and resolved, its protocol and its certificate |
| `Handshake.NoSharedVersionFails` | client.go:1001-1004 | without a shared version no line of that server is accepted, whatever its address, protocol and certificate |
| `Handshake.VersionIsSecond` | server.go:442-448 | whatever the other fields, the second part of the first line is the version |
| `Handshake.Connect` | client.go:740-1072 | server choice, line and client reading composed: with a shared version and nothing else against it the client ends on the largest shared one with its own set, at the server's resolved address and with its certificate; without one it fails and kills the server |
| `Handshake.StartAgain` | client.go:744-752 | after a Start that failed past its version check, the next one offers the same versions if and only if ProtocolVersion was among them, and otherwise ProtocolVersion too with the refused version's set |
| `Handshake.Client.Reattach` | client.go:1132-1160 | the adopted address, version, protocol, table and plugin set |
| `Handshake.ReattachFindsTheSet` | client.go:1152-1160 | for every configuration the set adopted on reattach is the one negotiation chose |
| `Handshake.StartAndReattach` | client.go:1097-1236 | a second client with the same configuration ends on the same address, version and set, and on the same protocol exactly when that is not empty |
| `StderrPump.TransparentExactlyWhen` | client.go:1338-1364 | for every input and every way ReadLine may cut it, config.Stderr gets the input byte for byte if and only if it has no "\r\n" and is empty, ends in a newline, or ends in a piece that filled the buffer |
| `StderrPump.CopiesInput` | client.go:1348-1364 | in general it gets the input with "\r\n" turned into "\n" and perhaps one final newline |
| `StderrPump.Pump` | client.go:1326-1431 | the loop with its two shortcuts emits the records of the pump that parses every line and lets the logger filter, for every level; piece by piece these are the entry at its own level, the line at the level of its literal tag, at Error from the beginning of a panic on, and otherwise at Debug, each unless the logger is above it |
| `StderrPump.LogLine` | client.go:1378-1429 | one whole line: exactly the record its JSON level, its literal tag or the panic state calls for, unless the logger is above it, and the panic state after it |
| `StderrPump.PanicIsSticky` | client.go:1394-1400 | the panic state holds exactly when an earlier whole line that is not JSON began a panic |
| `Stdio.HostSeesThePluginsBytes` | grpc_stdio.go:127-180 | in every run and merge order, a host output whose writer refused nothing is a prefix of the plugin's bytes for that channel, missing exactly what is on the way; once nothing is, it is all of them if and only if nothing was refused |
| `Stdio.ArrivesExactlyWhenItFlows` | grpc_stdio.go:52-219 | in every run, all bytes on the way can still arrive if and only if neither Run nor StreamStdio nor a copyChan has stopped short of them; what has stopped short never arrives |
| `Stdio.StopsExactlyOnErrors` | grpc_stdio.go:52-219 | in every run, Run has stopped exactly if a receive failed, StreamStdio exactly if its context was done or a send failed, a copyChan exactly if its read failed |
| `Stdio.ChunksAreBounded` | grpc_stdio.go:60-83 | every message is a stdout or stderr chunk of 1 to 1024 bytes, so the empty-data test and the unknown channel are never met |
| `Stdio.CopyChan` | grpc_stdio.go:184-219 | each read sends exactly the bytes it returned, if any, also with an error, and the first error is the end; the chunks are 1 to 1024 bytes long |
| `Stdio.StreamStdio` | grpc_stdio.go:52-84 | for every choice of the select: every pick before the first failed send, unanswered pick or done context is sent, as the next chunk of its channel under its name, and no pick after; the chunks taken are counted by channel, and each channel's sent bytes are a prefix of them, equal if no send failed |
| `Stdio.Demultiplex` | grpc_stdio.go:142-180 | each writer gets exactly its channel's bytes, in order |
| `BrokerObject.GRPCBroker.constructor` | grpc_broker.go:287-300 | a fresh broker |
| `BrokerObject.GRPCBroker.GetClientStream` | grpc_broker.go:634-648 | the id's entry or a new one |
| `BrokerObject.GRPCBroker.GetServerStream` | grpc_broker.go:652-666 | the id's entry or a new one |
| `BrokerObject.GRPCBroker.RunRoute` | grpc_broker.go:603-611 | knocks that are no acks go to the listeners' table, all else to the dialers' |
| `BrokerObject.GRPCBroker.RunQueue` | grpc_broker.go:612-628 | the slot is filled, or a full slot drops the message |
| `BrokerObject.GRPCBroker.TimeoutWait` | grpc_broker.go:668-681 | the id is deleted, whichever entry it names by then |
| `BrokerObject.GRPCBroker.DialStream` | grpc_broker.go:538 | a Dial waits on the id's entry |
| `BrokerObject.GRPCBroker.DialReceive` | grpc_broker.go:540 | the slot is emptied into the Dial |
| `BrokerObject.GRPCBroker.ResolveTarget` | grpc_broker.go:552-571 | the address translated once, on a known network |
| `BrokerObject.GRPCBroker.DialComplete` | grpc_broker.go:541-573 | the done channel is closed, a second close panics, and the dialled address is recorded |
| `BrokerObject.GRPCBroker.DialReap` | grpc_broker.go:542-550 | a Dial that times out deletes the id |
| `BrokerObject.GRPCBroker.AcceptAdvertise` | grpc_broker.go:342-364 | if the address can be translated and the Send works, exactly that address is sent under the id and Accept succeeds; otherwise nothing is sent and it fails |
| `BrokerObject.GRPCBroker.KnockStream` | grpc_broker.go:481 | the dialer waits on the id's entry |
| `BrokerObject.GRPCBroker.KnockReceive` | grpc_broker.go:483-492 | admitted exactly by an ack for the id without an error |
| `BrokerObject.GRPCBroker.KnockReap` | grpc_broker.go:493-500 | a knock that times out deletes the id |
| `BrokerObject.GRPCBroker.AcceptStream` | grpc_broker.go:307-313 | a listener for the id is started |
| `BrokerObject.GRPCBroker.ListenStream` | grpc_broker.go:429 | the listener waits on the entry the id names by then |
| `BrokerObject.GRPCBroker.ListenReceive` | grpc_broker.go:432-441 | the slot is emptied and the two checks hold |
| `BrokerObject.GRPCBroker.CloseMark` | grpc_broker.go:325-327 | the entry is done, whoever closes first |
| `BrokerObject.GRPCBroker.CloseForget` | grpc_broker.go:329-333 | the id is deleted |
| `BrokerObject.GRPCBroker.Drive` | grpc_broker.go:305-681 | the object driven through any interleaving: no pending entry leaks, no listener meets a message it cannot explain, and without a second read, or with one Dial of each id, nothing panics |
| `ServerMuxer.GRPCServerMuxer.constructor` | internal/grpcmux/grpc_server_muxer.go:50-64 | nothing knocked, nothing registered |
| `ServerMuxer.GRPCServerMuxer.Listener` | internal/grpcmux/grpc_server_muxer.go:174-186 | a new channel under the id, over any earlier one |
| `ServerMuxer.GRPCServerMuxer.AcceptKnock` | internal/grpcmux/grpc_server_muxer.go:202-205 | the door is set to the id, whether or not it has a listener |
| `ServerMuxer.GRPCServerMuxer.Receive` | internal/grpcmux/grpc_server_muxer.go:131 | the loop holds the next stream |
| `ServerMuxer.GRPCServerMuxer.Route` | internal/grpcmux/grpc_server_muxer.go:133-153 | the stream goes to the knocked listener, is closed, or goes to the default listener |
| `ServerMuxer.GRPCServerMuxer.Deliver` | internal/grpcmux/blocked_server_listener.go:34-41 | the stream is handed to the channel that was looked up, and to no other |
| `ServerMuxer.Drive` | internal/grpcmux/grpc_server_muxer.go:124-205 | a new muxer taken through any fair run of both processes: every listener it ever made was handed only streams opened for its id |
| `ClientMuxer.GRPCClientMuxer.constructor` | internal/grpcmux/grpc_client_muxer.go:58-65 | no listeners |
| `ClientMuxer.GRPCClientMuxer.Listener` | internal/grpcmux/grpc_client_muxer.go:72-80 | a new gate, the newest of its id |
| `ClientMuxer.GRPCClientMuxer.AcceptKnock` | internal/grpcmux/grpc_client_muxer.go:82-92 | an error exactly without a listener, else a token for the newest gate of the id and no other |
| `ClientMuxer.GRPCClientMuxer.Accept` | internal/grpcmux/blocked_client_listener.go:31-34 | the gate's token is taken |
| `ClientMuxer.GRPCClientMuxer.Return` | internal/grpcmux/blocked_client_listener.go:34 | an Accept with a token returns the next stream of the session, whoever it was opened for |
| `ClientMuxer.Drive` | internal/grpcmux/grpc_client_muxer.go:72-101 | a new muxer taken through any run in which knocks wait for the knocks of other ids: every Accept that returned got a stream opened for its listener's id |
| `MuxBrokerObject.Broker.constructor` | mux_broker.go:44-49 | a fresh broker |
| `MuxBrokerObject.Broker.GetStream` | mux_broker.go:179-193 | the id's entry or a new one |
| `MuxBrokerObject.Broker.RunRoute` | mux_broker.go:157 | Run has the id's entry |
| `MuxBrokerObject.Broker.RunQueue` | mux_broker.go:158-175 | the slot is filled, or a full slot closes the stream |
| `MuxBrokerObject.Broker.TimeoutWait` | mux_broker.go:195-220 | the id is deleted, and only on a timeout is a queued stream closed |
| `MuxBrokerObject.Broker.AcceptStart` | mux_broker.go:56 | an Accept waits on the id's entry |
| `MuxBrokerObject.Broker.AcceptTake` | mux_broker.go:58 | the slot is emptied into the Accept |
| `MuxBrokerObject.Broker.AcceptClose` | mux_broker.go:59 | the entry is done; a second close panics |
| `MuxBrokerObject.Broker.AcceptAck` | mux_broker.go:68-74 | with the ack written the call returns its open stream, which was opened for this id; otherwise exactly that stream is closed and the call fails |
| `MuxBrokerObject.Broker.AcceptTimeout` | mux_broker.go:60-65 | the id is deleted |
| `MuxBrokerObject.Broker.Drive` | mux_broker.go:54-220 | the object driven through any interleaving: every stream is in one place, no key is left once all is quiet, and without a second read, or with one Accept of each id, nothing panics |
| `LifecycleObject.ManagedClients.Remove` | client.go:419-428 | the loop removes the first occurrence and nothing else |
| `LifecycleObject.Client.constructor` | client.go:500-508 | a fresh client, on the list if it is managed |
| `LifecycleObject.Client.StartEnter` | client.go:684-690 | with an address Start is over |
| `LifecycleObject.Client.StartSetRunner` | client.go:856 | the runner is recorded before it is started |
| `LifecycleObject.Client.StartContext` | client.go:878-882 | a new context, and both readers announced |
| `LifecycleObject.Client.StartStderr` | client.go:885-887 | the stderr reader runs |
| `LifecycleObject.Client.StartWaiter` | client.go:889-890 | the waiter runs |
| `LifecycleObject.Client.StartStdout` | client.go:920-921 | the stdout reader runs |
| `LifecycleObject.Client.StartAddDrain` | client.go:947 | the drain is announced |
| `LifecycleObject.Client.StartReturn` | client.go:865-875 | the drain runs, an unsuccessful launch is killed, the address is recorded only on success |
| `LifecycleObject.Client.ReaderEnds` | client.go:923 | one reader less to wait for before runner.Wait |
| `LifecycleObject.Client.ReaderLeaves` | client.go:922 | one goroutine less |
| `LifecycleObject.Client.DrainEnds` | client.go:948-954 | one goroutine less |
| `LifecycleObject.Client.WaiterCaptures` | client.go:892 | the cancel function is fixed when the defer is reached |
| `LifecycleObject.Client.WaiterMarksExit` | client.go:912-914 | exited is set under the lock |
| `LifecycleObject.Client.WaiterLeaves` | client.go:894 | one goroutine less |
| `LifecycleObject.Client.WaiterCancels` | client.go:892 | the captured context is cancelled, last |
| `LifecycleObject.Client.KillGate` | client.go:577-582 | without a runner the gate is left alone |
| `LifecycleObject.Client.KillEnter` | client.go:583-587 | the body runs, once |
| `LifecycleObject.Client.KillRead` | client.go:592-601 | without a named runner the body is over |
| `LifecycleObject.Client.KillForce` | client.go:667-671 | the runner is killed, whether or not a Start holds the lock |
| `LifecycleObject.Client.KillMark` | client.go:673-675 | processKilled is set under the lock |
| `LifecycleObject.Client.KillClear` | client.go:613-615 | the runner is forgotten |
| `LifecycleObject.Client.KillForget` | client.go:621-623 | a managed client leaves the list, the others keep their order |
| `LifecycleObject.Client.Drive` | client.go:571-954 | the object driven through any interleaving: the exited arm is never ready, the body runs at most once, contexts are cancelled in order, and a finished body has cleaned up |

## Left out

- yamux, gRPC, net, TLS and x509: foreign code; only first-in first-out streams and message streams are assumed, and translators, resolvers and the certificate parser are arbitrary functions.
- `session.Accept` failing in the accept loop of the server muxer, and the session set-up of both muxers: the session is over then.
- After a knock on an id without a listener the model's accept loop goes on, although the gRPC server that calls Accept may stop at the error: this adds runs, and the theorems hold in them.
- Time: the length of BrokerTimeout, StartTimeout and ShutdownTimeout; a timeout is a step that may always happen, so nothing is said about how soon.
- Liveness: no fairness between goroutines is assumed, so nothing says that a step does happen, only that calls can still end.
- `Transport`, `PluginRouting`, `PluginWedge`, `HostRouting` and the whole path of `Stdio` are state machines on values: their state lives in goroutines and channel meetings, for which Dafny has no imperative form. The objects in them are classes in `Muxers.dfy` and `BrokerObject.dfy`, and the loops of grpc_stdio.go are methods.
- CopyChan: what each read returns is given as a sequence, because the goroutine blocks in the reader; that a read returns at most a buffer of bytes is the reader's promise.
- Demultiplex: the writers accept all bytes; `HostSeesThePluginsBytes` covers writers that do not.
- Stdio with more than one StreamStdio call: two calls would share the channels.
- Start: certificate generation, checksum checking, socket directories and process launching, which are cryptography and system calls; the order of the checks before the launch.
- BrokersOnStreamersAreLinked: a broker's step that sends is taken when its message is written. The goroutine may go on at once or at any later moment, so runs in which it goes on only when its Send returns are among those covered.
- SortReverse: the library's sort is a function here; the sort of the client's own list is left out, because the server only asks whether a version is in it.
- Reattach: the pid, and the reattach configuration of a client that was itself reattached, which ReattachConfig returns as it is; the goroutine that waits for the attached process, and whether the runner is recorded.
- KillForce: the graceful close of the protocol client before it, which touches no modelled field; a graceful exit and the forced kill are both steps of the model.
- Pump: errors of the reader other than end of file, and panics of config.Stderr, both of which end the pump; the JSON parser is an arbitrary function.
- MuxBroker.Dial, which writes the id and compares the ack: `AcksMatch` is what it relies on.
- CleanupClients, NextId, AcceptAndServe, Discover, ServeMux, the rpc and gRPC client and server wiring: they would add only easy members.
