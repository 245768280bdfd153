# A verified model of gvisor-tap-vsock

gvisor-tap-vsock gives virtual machines a user-mode network: a learning Ethernet switch
joins the machines' sockets and a gateway stack, and the gateway runs DHCP, DNS, port
forwarding and SSH tunnels. This project models the stateful parts of it in Dafny and proves
what they keep over whole runs.

| module | what it models |
|---|---|
| `Protocols`, `ReceiveLoops` | the length-prefixed framings, the switch's stream receive loop over arbitrarily cut input, and the guest agent's two loops |
| `SwitchState` | the switch's tables and counters, the updates made inside its critical sections, and the history they agree with |
| `SwitchRuns`, `SwitchSafety`, `SwitchTheorems` | every interleaving of receive loops, gateway sends, failed writes and disconnects, with the three locks; the inductive invariant; the theorems over runs |
| `SwitchSends` | one call of `txPkt` followed through every interleaving, from lookup to last write |
| `SwitchTurns` | each turn of a receive loop and each frame from the gateway, in every interleaving |
| `SwitchPanic` | a concrete run in which forwarding meets a missing connection |
| `SwitchDevice` | the switch's methods as imperative code, tied to the same updates |
| `UdpProxy`, `UdpSafety`, `UdpPayload` | the UDP proxy's reader, reply goroutines and `Close` calls over the shared tracking table |
| `Options` | a value that may be missing |
| `IpPool`, `Dhcp` | the address pool and whole runs of the DHCP server |
| `Dns` | local zones: merging, lookup, and the answer read off the history of requests |
| `Ports` | the port-forward registry and its sorted listing |
| `Cmdline` | the command-line printer against the flag parser of gvproxy |
| `Ssh` | the nested retry loops of the SSH forwarder |

Concurrency is modelled as a transition system: a state holds the shared data, every
goroutine's position and the locks held, and one goroutine moves at a time. What a socket
read returns, whether and after how many bytes a write fails, and the order of a map
iteration are free choices of the environment; cancelled contexts, timeouts and dial results
are parameters. In the imperative modules they are arguments of the methods.

Five promises turn out not to hold as one would expect of the code. Each has a concrete
witness and the exact condition under which it does hold:

* Forwarding a unicast frame dereferences a missing connection exactly when the destination
  was last learned from a connection that a failed write had already dropped
  (`SwitchPanic.PanicRun`, `SwitchTheorems.PanicsExactlyOnStrayAddress`,
  `SwitchTheorems.NoFailureNoPanic`).
* The hyperkit framing loses frames of 65536 bytes or more
  (`Protocols.OversizedFrameIsLost`, `Protocols.RoundTripExactly`).
* After `Close` of the UDP proxy another backend may still be dialled, exactly when `Run` has
  a datagram in hand that needs one, and at most one (`UdpSafety.BackendDialledAfterClose`,
  `UdpSafety.DialsAfterCloseExactly`, `UdpSafety.CloseStopsTheProxy`).
* `Expose` looks up the bare local address, so it does not notice that the same protocol and
  address are already exposed (`Ports.ExposedTwice`, `Ports.GuardRefusesExactly`,
  `Ports.ReplacesExactly`).
* `initialConnection` returns neither a connection nor an error exactly when the context is
  cancelled before the first attempt (`Ssh.CancelledBeforehand`, `Ssh.InitialConnection`).

## Model

| member | source | states |
|---|---|---|
| `Protocols.SizeRoundTrip` | pkg/tap/protocols.go:29-54 | reading back a stored size gives it modulo 2^16 or 2^32, so exactly the sizes below the limit survive |
| `Protocols.PrefixRoundTrip` | pkg/tap/protocols.go:29-54 | every prefix is the encoding of the size it holds |
| `Protocols.PlaceValues` | pkg/tap/protocols.go:29-50 | the bytes of a prefix: 16 bits low byte first, or 32 bits high byte first |
| `Protocols.WriteSize` | pkg/tap/protocols.go:29-50 | the size is stored in place at the front of the buffer, 16 bits low byte first or 32 bits high byte first, and the rest is untouched |
| `Protocols.DecodeEncode` | pkg/tap/switch.go:166-249 | frames below the size limit are recovered whole and in order, whatever follows them on the stream |
| `Protocols.RoundTripExactly` | pkg/tap/switch.go:166-249 | the receive loop recovers exactly the frames sent if and only if all are below the size limit |
| `Protocols.OversizedFrameIsLost` | pkg/tap/protocols.go:29-35 | a hyperkit frame of 65536 bytes is read as an empty frame first |
| `Protocols.DecodeSound` | pkg/tap/switch.go:224-249 | any byte stream is the encoding of the frames processed plus a rest too short for a frame |
| `Protocols.TruncatedStream` | pkg/tap/switch.go:235-246 | a stream cut anywhere yields exactly the frames that arrived whole, then a read error |
| `ReceiveLoops.ReadFull` | pkg/tap/switch.go:235-242 | fills the buffer from arbitrarily cut input, and fails exactly when the stream is too short |
| `ReceiveLoops.RxOne` | pkg/tap/switch.go:235-246 | one turn of the loop consumes one frame of the stream, or ends it with the right error |
| `ReceiveLoops.RxStream` | pkg/tap/switch.go:224-249 | however the stream is cut, the frames processed are those of the whole stream up to the cancellation |
| `ReceiveLoops.GuestOne` | cmd/vm/main_linux.go:190-220 | one turn of the guest's loop, with its four ways to stop |
| `ReceiveLoops.GuestTx` | cmd/vm/main_linux.go:186-222 | the guest hands its tap exactly the frames of the stream up to the first it stops at or the tap refuses |
| `ReceiveLoops.GuestReceives` | cmd/vm/main_linux.go:186-222 | of the switch's frames the guest accepts those up to the first empty one or one larger than MTU + 14, and stops there |
| `ReceiveLoops.GuestAgrees` | cmd/vm/main_linux.go:186-222 | on every byte stream the guest delivers what the switch would decode, up to the first frame it refuses, and why it stops |
| `ReceiveLoops.GuestRx` | cmd/vm/main_linux.go:160-184 | the guest writes one whole hyperkit packet per tap frame |
| `ReceiveLoops.GuestToSwitch` | cmd/vm/main_linux.go:160-184 | the guest's loop and then the switch's loop over arbitrarily cut pieces: with an MTU below 65536 the switch processes exactly the guest's frames up to the cancellation, otherwise exactly when every frame fits |
| `SwitchState.ConnectKeeps` | pkg/tap/switch.go:102-111 | accepting a connection keeps both tables, the counters and every socket in agreement with the history |
| `SwitchState.LearnKeeps` | pkg/tap/switch.go:257-261 | learning keeps that agreement: an address maps to the last connection that used it |
| `SwitchState.WriteKeeps` | pkg/tap/switch.go:141-146 | a successful write keeps it: one more whole packet on one socket, the counter up by the frame length |
| `SwitchState.FailWriteKeeps` | pkg/tap/switch.go:171-179 | a failed write keeps it: at most a cut packet at the end of one socket |
| `SwitchState.DisconnectKeeps` | pkg/tap/switch.go:184-195 | a disconnect keeps it: the id leaves both tables |
| `SwitchState.CountKeeps` | pkg/tap/switch.go:282-282 | counting a processed frame keeps it |
| `SwitchState.AddressFields` | pkg/tap/switch.go:125-127 | a frame starts with its destination, then its source |
| `SwitchState.PeerDecodes` | pkg/tap/switch.go:166-182 | a stream peer decodes exactly the frames written to it, and then the frame of a failed write exactly if its whole packet had gone out |
| `SwitchSafety.StepInv` | pkg/tap/switch.go:80-283 | every step of every goroutine keeps the invariant |
| `SwitchSafety.RunInv` | pkg/tap/switch.go:80-283 | every state of every run satisfies the invariant |
| `SwitchSafety.StrayAddress` | pkg/tap/switch.go:156-182 | an address leading out of the connection table was learned from a connection dropped by a failed write whose receive loop still runs |
| `SwitchTheorems.TablesHoldRunningConnections` | pkg/tap/switch.go:80-111 | every id in either table was issued and its receive loop has not finished |
| `SwitchTheorems.ClosedForGood` | pkg/tap/switch.go:90-94 | after the deferred disconnect of an id it is in neither table for the rest of the run |
| `SwitchTheorems.AddressTableIsHistory` | pkg/tap/switch.go:184-195 | an address maps to a connection exactly when its last frame came from there and no disconnect followed |
| `SwitchTheorems.ConnectionTableIsHistory` | pkg/tap/switch.go:102-111 | the connection table holds exactly the ids issued and not disconnected |
| `SwitchTheorems.IdsIssuedOnce` | pkg/tap/switch.go:102-111 | over every run ids are issued in increasing order, so none twice |
| `SwitchTheorems.DisconnectTouchesOnlyItsId` | pkg/tap/switch.go:184-195 | over every run a disconnect, also a second one for the same id, leaves every other connection and its addresses in the tables as they were |
| `SwitchSends.SendProgress` | pkg/tap/switch.go:117-164 | at every point of a send, for every interleaving, each target already served got the frame exactly once, no other socket got anything, and other goroutines only learned and counted |
| `SwitchSends.TargetsAreHistory` | pkg/tap/switch.go:129-156 | a broadcast is for every connection accepted and not disconnected but the last to use its source; a unicast frame for the last to use its destination as a source |
| `SwitchSends.EachTargetOnce` | pkg/tap/switch.go:117-164 | every call of txPkt, in every interleaving, gives exactly those connections exactly one packet and nobody else any, unless a write fails, leaving a cut packet there and at most one on each other, or the destination is stray |
| `SwitchSends.UnicastGoesToItsOwner` | pkg/tap/switch.go:149-161 | every unicast write goes to the connection the address table named at that goroutine's own lookup, the last to use the destination as a source and in the connection table, with only learning and counting in between |
| `SwitchTurns.TurnHandlesFrame` | pkg/tap/switch.go:251-283 | every turn of a receive loop that returns to reading learned the source once, looked the destination up exactly once unless it was the gateway's, delivered exactly frames for the gateway or everyone, and counted once |
| `SwitchTurns.EveryProcessedFrameWasHandled` | pkg/tap/switch.go:251-283 | every frame counted went through such a turn of its connection's own goroutine |
| `SwitchTurns.LeavesOnlyThen` | pkg/tap/switch.go:224-271 | a receive loop ends only on a failed read, a done context or a panic, not because forwarding failed |
| `SwitchTurns.TransmittedFrameIsLookedUp` | pkg/tap/switch.go:74-78 | every frame the gateway sends is looked up exactly once before the call returns |
| `SwitchTheorems.AddressesLeadToConnections` | pkg/tap/switch.go:156-182 | over every run an address leads out of the connection table only after a failed write to a connection still being read |
| `SwitchTheorems.StrayIsHistory` | pkg/tap/switch.go:156-182 | over every run an address leads out of the connection table exactly when the connection it was last learned from had been dropped by a failed write |
| `SwitchTheorems.PanicsExactlyOnStrayAddress` | pkg/tap/switch.go:149-167 | over every run the lookup panics exactly on a unicast frame with such a destination |
| `SwitchTheorems.EveryPanicHasAStrayAddress` | pkg/tap/switch.go:149-167 | at every panic in a run's history there was such an address |
| `SwitchTheorems.NoFailureNoPanic` | pkg/tap/switch.go:149-182 | in runs without write failures every address leads to a connection and nothing panics |
| `SwitchPanic.PanicRun` | pkg/tap/switch.go:149-167 | a run with a failed write in which forwarding panics |
| `SwitchTheorems.CountersAreHistory` | pkg/tap/switch.go:146-161 | Sent and Received are the bytes successfully written, prefixes excluded, and fully processed, modulo 2^64 |
| `SwitchTheorems.CountersMove` | pkg/tap/switch.go:146-282 | in every step of a run Sent grows by exactly the frame written and Received by exactly the frame done with |
| `SwitchTheorems.SocketsCarryWholePackets` | pkg/tap/switch.go:117-182 | for every interleaving of senders a socket carries whole packets in order, then at most one cut packet |
| `SwitchTheorems.PeersReceiveWhatWasSent` | pkg/tap/switch.go:117-182 | the peer of a connection without failed writes decodes exactly the frames written, in order |
| `SwitchTheorems.PeersOfFailedWrites` | pkg/tap/switch.go:166-182 | over every run, with or without a failed write, which frames the peer decodes |
| `SwitchTheorems.LockOrder` | pkg/tap/switch.go:117-163 | locks are taken in the order writeLock, connLock, camLock, never twice, and none is held while reading a socket or calling the gateway |
| `SwitchTheorems.LocksExclude` | pkg/tap/switch.go:117-163 | no two goroutines are in conflicting critical sections |
| `SwitchTheorems.NeverStuck` | pkg/tap/switch.go:90-283 | whenever a goroutine holds or waits for a lock, some goroutine that holds or waits for one can step, even with waiting writers blocking new readers; readers of sockets and the gateway do not count |
| `SwitchTheorems.ConnLockIsLetGo` | pkg/tap/switch.go:102-163 | every move of the holder of connLock brings its release nearer and no other goroutine's move delays it |
| `SwitchDevice.Switch.Accepted` | pkg/tap/switch.go:102-111 | a fresh id, and the shared state as after the accept step |
| `SwitchDevice.Switch.Forget` | pkg/tap/switch.go:184-195 | the loop over the address table removes exactly the id's entries, in any order |
| `SwitchDevice.Switch.TxBuf` | pkg/tap/switch.go:166-182 | one packet on the socket, or the cut packet and the disconnect |
| `SwitchDevice.Switch.Broadcast` | pkg/tap/switch.go:129-147 | for any iteration order each connection but the source gets one copy, up to the first failure |
| `SwitchDevice.Switch.TxPkt` | pkg/tap/switch.go:117-164 | a broadcast goes to every connection but the one its source maps to, any other frame to the one its destination maps to; when it succeeds, fails or meets a missing connection, and the whole new state |
| `SwitchDevice.Switch.RxBuf` | pkg/tap/switch.go:251-283 | learn, forward, deliver protocol and payload, and count, with the whole new state; a guest's broadcast reaches every other connection and never its sender |
| `SwitchDevice.WriteAllEffect` | pkg/tap/switch.go:136-147 | every target gets the packet exactly once, nobody else gets anything, only sockets, counter and log change |
| `SwitchDevice.WriteAllCounter` | pkg/tap/switch.go:146-146 | Sent grows by the frame length per copy, modulo 2^64 |
| `SwitchDevice.ForwardingKeeps` | pkg/tap/switch.go:117-164 | forwarding keeps the agreement with the history |
| `SwitchDevice.FailureKeeps` | pkg/tap/switch.go:166-182 | so does a failed write with its disconnect |
| `SwitchDevice.FailureRemovesOne` | pkg/tap/switch.go:136-147 | after a failure exactly one connection is gone and every other got at most one copy |
| `SwitchDevice.MethodOrderIsARun` | pkg/tap/switch.go:136-147 | any order in which the method writes to all its targets is a run of the interleaving model with the same result |
| `UdpProxy.BigEndianConcat` | pkg/services/forwarder/udp_proxy.go:33-46 | the words of a key are read high byte first |
| `UdpProxy.KeysShared` | pkg/services/forwarder/udp_proxy.go:33-46 | two addresses share a key exactly when ports and zero-extended 128-bit IP values are equal |
| `UdpProxy.KeysInjective` | pkg/services/forwarder/udp_proxy.go:33-46 | within a family different addresses have different keys |
| `UdpSafety.StepInv` | pkg/services/forwarder/udp_proxy.go:69-153 | every step keeps the proxy's invariant |
| `UdpSafety.RunInv` | pkg/services/forwarder/udp_proxy.go:69-153 | every state of every run satisfies it |
| `UdpSafety.TableMatchesGoroutines` | pkg/services/forwarder/udp_proxy.go:118-131 | a key maps to a backend exactly while that backend's reply goroutine has not cleaned up; no key has two |
| `UdpSafety.CleanupRemovesOwnEntry` | pkg/services/forwarder/udp_proxy.go:70-75 | a reply goroutine deletes its own entry and no other |
| `UdpSafety.BackendsServeOneClient` | pkg/services/forwarder/udp_proxy.go:93-140 | datagrams go only to the backend dialled for their key, replies only to the address it was dialled for |
| `UdpSafety.RepliesReturnToSender` | pkg/services/forwarder/udp_proxy.go:93-140 | nobody gets replies of a backend fed by a different client |
| `UdpPayload.DatagramIsForwarded` | pkg/services/forwarder/udp_proxy.go:104-142 | over every run each datagram received is written to one backend as a prefix of its bytes, all of them unless a write failed, none only if the dial failed, no byte was accepted or it was empty |
| `UdpPayload.AnswerIsRelayed` | pkg/services/forwarder/udp_proxy.go:77-100 | over every run each answer read from a backend is written to the client whole before the next is read, or the goroutine gives up after a failed write |
| `UdpSafety.OpenBackendsGetClosed` | pkg/services/forwarder/udp_proxy.go:69-75 | every run goes on, by at most six moves of a backend's own reply goroutine and of the lock's holder, to one in which that backend is closed |
| `UdpSafety.CloseStopsTheProxy` | pkg/services/forwarder/udp_proxy.go:104-153 | after the listener closes at most one more backend is dialled, and after the sweep all earlier ones are closed or closing |
| `UdpSafety.BackendDialledAfterClose` | pkg/services/forwarder/udp_proxy.go:118-153 | a run in which a backend is dialled after Close returned |
| `UdpSafety.NoDialAgain` | pkg/services/forwarder/udp_proxy.go:104-131 | with the listener closed and no datagram in hand that needs a backend, nothing is dialled for the rest of the run |
| `UdpSafety.DialsAfterCloseExactly` | pkg/services/forwarder/udp_proxy.go:104-153 | with the listener closed another backend can be dialled if and only if Run has received a datagram and not looked it up, or is looking one up whose client has no entry |
| `UdpSafety.CopyOut` | pkg/services/forwarder/udp_proxy.go:132-140 | partial writes send a prefix of the datagram, all of it unless a write fails |
| `UdpSafety.Proxy.Track` | pkg/services/forwarder/udp_proxy.go:118-131 | a known client keeps its backend, a new one gets a fresh one, a failed dial changes nothing, as in the interleaving model |
| `UdpSafety.Proxy.CloseAll` | pkg/services/forwarder/udp_proxy.go:145-153 | every backend in the table is closed, in any order |
| `IpPool.Pool.GetOrAssign` | pkg/tap/ip_pool.go:41-63 | a known client keeps its address, a new one gets the lowest free host number, and it fails exactly when all are leased |
| `IpPool.Pool.Reserve` | pkg/tap/ip_pool.go:65-70 | the address is the client's, whatever it was before |
| `IpPool.Pool.Release` | pkg/tap/ip_pool.go:72-86 | one address of the client is freed, if it has any |
| `IpPool.Pool.Snapshot` | pkg/tap/ip_pool.go:26-34 | a copy of all leases, in any iteration order |
| `IpPool.RoomForOneMore` | pkg/tap/ip_pool.go:51-62 | allocation cannot fail while there are fewer leases than host numbers |
| `IpPool.StepUnique` | pkg/tap/ip_pool.go:41-86 | assignment and release keep clients at one address; a reservation does exactly when its client has no other |
| `IpPool.RunUnique` | pkg/tap/ip_pool.go:41-86 | every pool reachable with such reservations gives each client at most one address |
| `IpPool.StableAddress` | pkg/tap/ip_pool_test.go:10-41 | a client not released and not overwritten gets the same address at every later point |
| `Dhcp.Handle` | pkg/services/dhcp/dhcp.go:26-72 | the lease is made before the type is looked at; discover gives an offer, request an acknowledgement, anything else nothing |
| `Dhcp.StartUp` | pkg/virtualnetwork/virtualnetwork.go:38-42 | the reserved leases, independent of the order of the static leases |
| `Dhcp.OneAddressPerClient` | pkg/services/dhcp/dhcp.go:26-72 | over a run two replies carry the same address exactly when they answer the same client |
| `Dhcp.ReservationsRespected` | pkg/services/dhcp/dhcp.go:34-46 | nobody else gets the gateway's or a static lease's address, and a static client gets no other |
| `Dhcp.AnsweredExactly` | pkg/services/dhcp/dhcp.go:28-66 | exactly which messages are answered |
| `Dhcp.ReplyContents` | pkg/services/dhcp/dhcp.go:46-66 | over a run a discovery gets an offer, a request an acknowledgement, with the gateway as server, router and resolver, an hour's lease, the mask, the MTU and the search domains |
| `Dhcp.EveryMessageLeases` | pkg/services/dhcp/dhcp.go:28-44 | over a run every well-formed message of any type leaves its client with a lease, unless the network is full |
| `Dns.Handler.AddZone` | pkg/services/dns/dns.go:257-269 | merge in place into the first zone of the name, otherwise append |
| `Dns.Handler.AddAnswers` | pkg/services/dns/dns.go:45-199 | the nested loops with their early returns compute the reply that the next row describes |
| `Dns.RespondMeans` | pkg/services/dns/dns.go:45-199 | questions in no zone are passed on until the resolver fails; the first in a zone ends the reply, with the first record that answers in the first such zone, its default, or a name error |
| `Dns.LookupIsHistory` | pkg/services/dns/dns.go:45-86 | after any run of additions every lookup is the one made on the history |
| `Dns.LookupByPosition` | pkg/services/dns/dns.go:45-86 | by positions in the history: the earliest request whose zone the name is in decides, the first record that answers in the newest request with one answers, otherwise the newest default, otherwise a name error |
| `Dns.LookupElsewhere` | pkg/services/dns/dns.go:49-51 | a name in no zone ever asked for is not answered locally |
| `Dns.AddDoesNotInterfere` | pkg/services/dns/dns.go:257-269 | adding a zone changes no answer for a name another zone decides, nor for names outside the new zone |
| `Dns.StartUpIsHistory` | pkg/services/dns/dns.go:207-210 | zones given at start-up behave as requests made one by one exactly when their names differ |
| `Dns.AddAllInOrder` | pkg/services/dns/dns.go:257-269 | over every run the zones have exactly the names asked for, each once, in order of first appearance |
| `Dns.LocalNamesStayLocal` | pkg/services/dns/dns.go:48-92 | questions in a local zone never depend on the system resolver |
| `Ports.KeyInjective` | pkg/services/forwarder/ports.go:259-261 | a key determines protocol and local address |
| `Ports.PortsForwarder.Expose` | pkg/services/forwarder/ports.go:68-257 | the outcome and the new registry, with the guard as written |
| `Ports.PortsForwarder.Unexpose` | pkg/services/forwarder/ports.go:263-272 | the entry goes and its proxy is closed, or nothing changes |
| `Ports.EveryProxyAccountedFor` | pkg/services/forwarder/ports.go:68-272 | over every run entries sit under their own key and every proxy started is in the table, closed, or replaced by a later one for the same protocol and address |
| `Ports.TableIsHistory` | pkg/services/forwarder/ports.go:68-272 | over every run the table holds exactly the proxies last started under their key and not stopped since, with the local address, remote address and protocol of that request |
| `Ports.GuardRefusesExactly` | pkg/services/forwarder/ports.go:71-73 | the guard refuses exactly local addresses that are some entry's key |
| `Ports.ReplacesExactly` | pkg/services/forwarder/ports.go:188-252 | a running proxy is overwritten exactly when the same protocol and address are exposed again |
| `Ports.ExposedTwice` | pkg/services/forwarder/ports.go:71-198 | exposing a unix socket twice leaves the first proxy running and unreachable |
| `Ports.All` | pkg/services/forwarder/ports.go:276-290 | the listing holds exactly the entries, in dictionary order of the local address and then of the protocol |
| `Ports.ListingUnique` | pkg/services/forwarder/ports.go:283-288 | there is only one such list, so map order never shows |
| `Cmdline.IntRoundTrip` | pkg/types/gvproxy_command.go:165-169 | printed numbers parse back |
| `Cmdline.DecimalPlaces` | pkg/types/gvproxy_command.go:165-169 | numbers are printed in decimal, highest place first, without leading zeros |
| `Cmdline.ParseRender` | cmd/gvproxy/main.go:59-75 | parsing printed flags is setting them one by one |
| `Cmdline.GvproxyCommand.AddEndpoint` | pkg/types/gvproxy_command.go:54-60 | endpoints accumulate in order |
| `Cmdline.GvproxyCommand.AddSocket` | pkg/types/gvproxy_command.go:62-85 | the last socket for a flag wins |
| `Cmdline.GvproxyCommand.AddForward` | pkg/types/gvproxy_command.go:87-109 | values of a forward flag accumulate in order |
| `Cmdline.GvproxyCommand.ToCmdline` | pkg/types/gvproxy_command.go:111-183 | prints the command, with each map in some order, and the parser recovers the command from exactly what was printed |
| `Cmdline.DefaultCommand` | pkg/types/gvproxy_command.go:32-183 | the text a fresh command prints |
| `Cmdline.CommandRoundTrip` | cmd/gvproxy/main.go:59-75 | for every order of the maps the parser recovers the settings, every socket, and the non-empty endpoints and forward values in order |
| `Ssh.ReconnectLoop` | pkg/sshclient/ssh_forwarder.go:95-103 | at most three reconnects and two sleeps |
| `Ssh.ConnectForward` | pkg/sshclient/ssh_forwarder.go:83-110 | at most three dials, two checks, six reconnects and six sleeps; the deciding attempt is the last, one dial follows a cancelled outer sleep, and without cancellation the tunnel is given up only after three dials |
| `Ssh.TracedAt` | pkg/sshclient/ssh_forwarder.go:83-110 | every check directly follows a failed dial, reconnects come exactly after a failed check, dials only after the outer sleep, each with its own outcome |
| `Ssh.WaitsGrow` | pkg/sshclient/ssh_forwarder.go:254-264 | waits never get shorter and stay between 100 ms and 1 s |
| `Ssh.WaitingBounded` | pkg/sshclient/ssh_forwarder.go:189-207 | all waits together are at most 57.5 s, reached only with sixty failures |
| `Ssh.InitialConnection` | pkg/sshclient/ssh_forwarder.go:183-209 | at most sixty attempts with the waits between them; neither connection nor error exactly when cancelled before the first |
| `Ssh.CancelledBeforehand` | pkg/sshclient/ssh_forwarder.go:192-208 | a call that returns neither |

## Left out

- Frames shorter than 14 bytes: the code slices the header without a length check; the model starts from frames long enough to hold an Ethernet header.
- The gVisor stack, the packet decoder, tcpproxy, the DNS, DHCP and SSH libraries: only the contracts used appear, as parameters or free choices.
- The non-stream receive loop, the debug output and the formatting of the `CAM()` copy: they add no property beyond the stream loop and the tables.
- SwitchRuns: `nextConnID` is an unbounded number; a counter update and the write it follows are one step.
- UdpProxy: the interleaving model updates the table on values; the critical sections of `Run` and `Close` are also given as code in `UdpSafety.Proxy`.
- Real time: read deadlines are failures that may happen at any moment.
- IpPool: addresses are numbers rather than dotted strings, formatting being injective; IPv6 networks are not modelled.
- Dhcp: requests are taken in the order the pool's lock serves them; the encoding of the reply's options is the library's.
- Dns: regular expressions and the system resolver are oracles; truncation of the reply is the library's.
- Ports: whether a listener starts is a parameter, so the address parsing and the dial functions inside `Expose` are not modelled; the sort is an insertion sort in place of the library's.
- Cmdline: the number parser accepts decimal numbers only, not the prefixed and underscored forms; the program's checks after parsing are not modelled.
- Ssh: listening, accepting and copying between the two connections.
- The link endpoint (Ethernet headers and the ARP filter), the TCP and UDP forwarders that dial out of the gateway stack, the vpnkit handshake, the HTTP handlers, the transports that open listeners and sockets, and the command-line tools around the library.
