# vetis-tokio: listeners, hosts and byte streams, proved

A Dafny 4.11 model of the parts of vetis-tokio that are its own logic, with proofs over every run
and every input. `dafny verify dfyconfig.toml` checks all of it.

**One listener from `listen` to `stop`** (`Lifecycle*.dfy`, `ListenerRuntime.dfy`). The dispatcher
task, the queue, the workers, the connection tasks and the `watch` channels between them form a
transition system. A future can be dropped only where it awaits, so an action runs from one `.await`
to the next; blocks that share a table with tasks running in parallel are cut further, so that a
task may run before its handle is recorded and while `stop` goes through the table. TCP and UDP are
one system: UDP has no peek and no TLS task phase, a failed QUIC handshake returns from `run`, and
dropping the dispatcher then cancels the workers. `Runtime` has the loops as they are written; each
method is proved to be a run of the system.

**Registration and dispatch** (`HostKeys`, `Listeners`, `Registration*`, `VetisBuilder`, `TlsSetup`,
`Routing`, `Services`, `EndToEnd`, `Server`). The vector of listeners, merged in place, refines one
flat map from transport, interface, port and hostname to the last host added. Keys are printed,
split again by the TLS set-up and looked up by request authority. Then routing, default headers and
errors, and starting and stopping the server.

**Byte streams** (`ByteStream`). A file read in chunks and the HTTP/3 loop that sends them.

The environment decides everything that is not this code: which enabled action comes next, what
sockets, handshakes and peeks answer, peer addresses, the ports the system hands out, whether
certificates are accepted, what handlers return. The model is of a build with the `http3` feature;
without it no host lists HTTP/3. Assumed of libraries: the crossfire queue is a bounded FIFO whose
capacity is the number of workers; `watch::changed` is ready when the version moved or no sender is
left; papaya maps are atomic maps and iteration meets every entry that stays; dropping a `JoinSet`
marks its tasks cancelled, and a marked task is dropped where it next has to wait, so one that is
being polled at that moment still runs through every await that is ready (the model lets a marked
worker do either at each await); the path router maps a URI to its last path and finds the
longest stored key that is a prefix; whether the log macro evaluates the `accept` among its arguments
is left open, so both happen; the `vetis` crate's types hold what their accessors return.

Where the code and its documentation differ, the code is followed: `stop` is documented to wait for
ongoing requests (src/rt.rs:346-347), but workers signal and abort their connections.

What turned out not to hold is proved with the exact condition:

- A worker's table can lose the handle of a live task when a peer address is used again before the
  earlier task on it has removed its entry. `StopCanMissALiveTask` is such a run; `CoverageOverRuns`
  says exactly which actions are to blame.
- Host keys: plain http on TCP port 443 and https on TCP port 80 do not find their hosts
  (`FoundExactly`), and find one registered with the port in its name instead (`FoundBearsTheName`);
  `HttpOn443Misses` is a registration where that happens. A bare key with a colon in its hostname is
  cut by the TLS set-up (`SplitExactly`), which resolves just the TLS hostnames if and only if none is
  cut (`TlsNamesTheLastHosts`); `BareColonLosesItsCertificate` is a registration where one is.
  `remove_host` with the hostname undoes `add_host` only on ports left out of the key
  (`RemoveUndoesAddExactly`).
- `UdpListener::ne` is not the negation of `eq` (`DiffersExactly`); the merge uses `==` only.
- A pending stream gets its connection task, in some continuation, exactly if a worker is in service
  (`DeliveryPossibleExactly`). Otherwise, with every worker lost to failed peeks or none started
  because the TLS set-up failed, no continuation ever starts a task: `HandOffStopsAfterFailedPeek`
  and `HandOffStopsWithoutWorkers` are such runs, and in `SendWithoutWorkersIsInVain` a send is still
  possible. Whether hand-off has a next action at all is `HandOffStandsStillExactly`.
- The queue keeps its sender as long as there are workers, except that a UDP dispatcher lost to a
  failed handshake drops it while a worker may still be in mid-poll (`QueueDisconnectsExactly`);
  `QueueCanDisconnect` is such a run.
- The HTTP/3 body loop does not end while reads keep failing. It ends exactly at the first empty read
  or the first chunk that cannot be sent, whichever comes first (`SendBody`), and so never once all
  later reads fail, as those of a status page that names a directory do (`FailingReadsNeverEnd`).

## Model

| member | source | states |
|---|---|---|
| LifecycleSafety.ExactlyOnePlace | src/listener/tcp.rs:283-324 | in every reachable state each accepted stream is in exactly one place: dispatcher's hand, a queue slot, one worker's hand, one connection task, or retired |
| LifecycleSafety.ConservationStep | src/worker/tcp.rs:67-131 | no action of any actor loses or duplicates a stream; only an accept, the one in the error log included, adds one |
| LifecycleOrder.TakenInAcceptOrder | src/worker/tcp.rs:67-70 | workers collectively take what was sent, as a prefix, in the order of acceptance, so no stream is handed to two workers |
| LifecycleOrder.SettledForGood | src/worker/tcp.rs:82-131 | a stream given to a connection task, or retired, stays there for the rest of any run |
| LifecycleOrder.HandOffBound | src/listener/tcp.rs:284-319 | accepted streams without a connection task never exceed capacity + W + 1, that is 2W + 1 |
| LifecycleOrder.NoConnectionOutlivesItsWorker | src/worker/tcp.rs:64-126 | a serving task with an unresolved receiver has a worker in its loop holding a sender; its close branch is enabled exactly when the worker has left the loop |
| LifecycleShape.RunKeepsShape | src/listener/udp.rs:254-329 | phases, signals and sender counts of dispatcher, workers and tasks fit together after every run, TCP or UDP |
| LifecycleHistory.WorkersAfterRun | src/listener/tcp.rs:243-281 | after any run there are as many workers as configured if a start succeeded, else none; each has ended, was joined or cancelled just as the run's actions say |
| LifecycleHistory.TasksAfterRun | src/worker/tcp.rs:83-131 | after any run there is one task per successful peek (UDP: per stream taken), with TLS or without as peeked, and it stands where its own actions say: served only if plain or after a handshake that succeeded, failed exactly if its handshake failed, aborted only by its worker under its address |
| LifecycleHistory.DispatcherAfterRun | src/listener/udp.rs:306-348 | after any run the dispatcher and the owner stand where the run's actions say, and the dispatcher reports failure exactly after a failed QUIC handshake |
| LifecycleHistory.StreamsAfterRun | src/listener/tcp.rs:298-323 | after any run streams accepted, sent and taken are as many as the actions that do so, and each loss has the reason of its action |
| LifecycleTable.StopFindsEveryLiveTask | src/worker/tcp.rs:67-150 | without early address reuse every live task is in the table at the worker's await points, and is aborted once `stop` is through |
| LifecycleTable.CoverageExact | src/worker/tcp.rs:103-131 | an action makes `stop` miss a live task exactly when it records over, or removes, the handle of a live task |
| LifecycleTable.CoverageOverRuns | src/worker/tcp.rs:67-150 | every live task can be found throughout a run if and only if no action of the run is of that kind |
| LifecycleTable.StopEndsEveryTask | src/listener/tcp.rs:327-348 | once the end was asked for or the dispatcher has left its loop, a run without early address reuse can be continued by the listener itself or is at rest, and then every task of a stopped worker has ended |
| LifecycleRuns.StopCanMissALiveTask | src/worker/tcp.rs:103-150 | a concrete run with a reused address in which the owner's `stop` returns while a task is still in its handshake |
| LifecycleRuns.FailedHandshakeStays | src/worker/tcp.rs:91-107 | a concrete run: a failed TLS handshake leaves its handle in the table |
| LifecycleRuns.RemovedBeforeInserted | src/worker/tcp.rs:122-131 | a concrete run: a task removes its address before its handle is recorded, and the handle stays |
| LifecycleRuns.StopClosesAServedConnection | src/worker/tcp.rs:136-150 | a concrete run: a served TLS connection is signalled and aborted, and ends by the signal |
| LifecycleRuns.StopAbortsAServedConnection | src/worker/tcp.rs:136-150 | the same run ending by the abort instead |
| LifecycleRuns.DropEndsTheListener | src/listener/tcp.rs:180-194 | a concrete run: the listener is dropped and its dispatcher and worker end |
| LifecycleRuns.EndpointEndsTheListener | src/listener/udp.rs:302-330 | a concrete run: a closed QUIC endpoint ends the listener with success and cancels its worker |
| LifecycleProgress.RunLength | src/listener/tcp.rs:298-323 | any run is at most as long as the initial work plus ten actions per answer of `accept` |
| LifecycleProgress.ShutdownCompletes | src/listener/tcp.rs:327-348 | from every state in which `stop` or a drop was asked for, or the dispatcher left its loop, own actions alone bring the listener to rest within its work, and `stop` has returned |
| LifecycleProgress.EveryScheduleEnds | src/listener/tcp.rs:262-276 | once the end was asked for or the dispatcher has left its loop, every schedule is bounded by the work left and further answers of `accept`, of which there are none out of the loop, and one that cannot go on is at rest |
| LifecycleProgress.TcpStopReturns | src/listener/tcp.rs:196-209 | after `stop` has been called on a TCP listener it can always be brought to return, with every worker joined and success reported |
| LifecycleProgress.NothingTakenAfterTheEnd | src/listener/tcp.rs:332-347 | with the dispatcher ended and no worker left, no continuation takes a stream or starts a task |
| LifecycleProgress.QueueDisconnectsExactly | src/worker/udp.rs:54-98 | in every reachable state a worker's `recv` can fail exactly if the worker was cancelled in mid-poll and the queue is empty; only on UDP, after the dispatcher was dropped |
| LifecycleRuns.QueueCanDisconnect | src/listener/udp.rs:311-313 | a concrete run: a failed handshake while a worker is between spawn and insert |
| LifecycleProgress.FailedGreetingEndsTheListener | src/listener/udp.rs:311-313 | after a failed QUIC handshake no schedule accepts another connection, each ends, and what cannot go on is at rest |
| LifecycleHandOff.EveryScheduleHandsOff | src/worker/tcp.rs:67-131 | every schedule with the dispatcher in its loop is bounded by work and arrivals; at its end a pending stream can move on exactly under `CanHandOff`; only failed peeks and the error log lose streams, and without such failures a worker stays in service |
| LifecycleHandOff.HandOffStandsStillExactly | src/listener/tcp.rs:284-323 | with a stream pending, hand-off has no next action exactly when all workers are gone, no greeting is under way and a send has no room |
| LifecycleHandOff.DeliveryPossibleExactly | src/listener/tcp.rs:284-323 | with a stream pending, some continuation delivers all pending streams exactly if a worker is in service; if none is, none ever starts a task |
| LifecycleHandOff.DesertedForGood | src/worker/tcp.rs:67-134 | with no worker in service no continuation takes a stream or starts a task |
| LifecycleHandOff.HandOffCompletes | src/worker/tcp.rs:67-131 | with a worker in service, hand-off actions give every pending stream to a task within the work at that point, losing none |
| LifecycleHandOff.PendingStreamsGetTasks | src/worker/tcp.rs:67-131 | from every reachable state with a worker in service, every schedule of hand-off actions is bounded, loses nothing, goes on until each pending stream has its task, and can always be completed |
| LifecycleRuns.HandOffStopsWithoutWorkers | src/listener/tcp.rs:289-294 | a concrete run: TLS set-up fails, the queue fills, and no continuation takes a stream or starts a task |
| LifecycleRuns.SendWithoutWorkersIsInVain | src/listener/tcp.rs:289-319 | a concrete run with a send still possible after which no continuation starts a task |
| LifecycleRuns.HandOffStopsAfterFailedPeek | src/worker/tcp.rs:77-81 | a concrete run: the only worker is lost to a failed peek, and no continuation takes a stream or starts a task |
| ListenerRuntime.Runtime.InitWorkers | src/listener/tcp.rs:243-281 | the spawning loop is the `Start` action: as many fresh workers as configured and a signal, or none of both if TLS set-up fails |
| ListenerRuntime.Runtime.AcceptLoop | src/listener/tcp.rs:298-323 | the accept loop is the run its answers call for, each stream sent as soon as there is room; it pauses only to accept, for room, or on leaving |
| ListenerRuntime.Runtime.OnIncoming | src/listener/udp.rs:306-322 | one accepted connection: greet, then send if there is room; a failed greeting unwinds |
| ListenerRuntime.Runtime.OnFailed | src/listener/tcp.rs:299-314 | a failed accept: the second accept inside the log call retires the stream it gets |
| ListenerRuntime.Runtime.WorkerLoop | src/worker/tcp.rs:67-134 | the worker loop is exactly the take, peek, spawn and insert actions its wakes call for, and ends on an empty queue without a sender; unless a stream fails it, its new tasks are the streams it took, in order |
| ListenerRuntime.Runtime.WorkerStop | src/worker/tcp.rs:136-150 | signal and abort loop: a run of own actions after which every task in the table is marked aborted |
| ListenerRuntime.Runtime.DispatcherStop | src/listener/tcp.rs:327-348 | for any order in which workers end, the join loop terminates with every worker joined and success, within the work left |
| HostKeys.KeyInjective | src/listener/tcp.rs:94-99 | on one listener different hostnames have different keys |
| HostKeys.DecimalPrints | src/listener/tcp.rs:98 | a port is printed as its own number, in digits only, without leading zeros |
| HostKeys.KeyReadsBack | src/listener/udp.rs:94-99 | a key is the hostname, or the hostname, a colon and digits that read as the port |
| HostKeys.SplitExactly | src/tls.rs:49-51 | splitting a printed key at the last colon gives the hostname exactly when the key carries a port or the hostname has no colon |
| HostKeys.SplitCutsBareColon | src/tls.rs:49-51 | the hostname `::1` on TCP port 443 is read back as `:` |
| Listeners.DiffersExactly | src/listener/udp.rs:44-64 | `!=` negates `==` except between two UDP listeners that differ in just one of port and interface |
| Listeners.Listener.AddHost | src/listener/tcp.rs:92-104 | the host is entered under its printed key and nothing else changes |
| Listeners.Listener.RemoveHost | src/listener/tcp.rs:106-111 | on a port left out of keys the host of that name is gone; on any other it stays, and at most a host whose name with the port spells the argument goes; all others stay |
| Listeners.Listener.ReservePort | src/listener/tcp.rs:121-143 | for port 0 keeps a socket bound to the address it then configures; otherwise changes nothing |
| Listeners.Listener.Listen | src/listener/udp.rs:154-208 | takes a reserved socket instead of binding, never binds again, and starts exactly if it has a socket and QUIC sets up |
| Listeners.Listener.Stop | src/listener/tcp.rs:196-209 | shuts a dispatcher down exactly if there is one, without error |
| Registration.MergeRefines | src/rt.rs:74-83 | merging one host into the vector is one entry in the flat map |
| Registration.RegistrationRefinesFlatMap | src/rt.rs:24-118 | for every sequence of hosts and whatever ports are handed out, the tables together are the map of last registrations, up to the first error |
| RegistrationFacts.VectorOverRuns | src/rt.rs:57-112 | over all runs entries are pairwise different, none keeps port 0, reserved sockets fit their entries and each has the server's number of workers |
| RegistrationFacts.LaterAdditionsKeepEntries | src/rt.rs:74-83 | continuing a run never moves, removes or reconfigures an entry |
| RegistrationFacts.BothTransportsShareThePort | src/rt.rs:86-114 | a host with both transports gets, per bind address, port 0 included, a TCP and a UDP listener on one interface and port |
| RegistrationFacts.ProtocolsDecide | src/rt.rs:31-114 | HTTP/1.1 or HTTP/2 gives a host a TCP key and HTTP/3 a UDP key per bind address, and nothing else does; port 0 is chosen once for both |
| RegistrationFacts.HostIsServed | src/rt.rs:31-114 | after a host was added each of its bind addresses has a listener of each of its transports that holds it |
| RegistrationFacts.SharedPortReservesOnce | src/rt.rs:87-105 | a host with a TCP listener never has a socket reserved for UDP |
| RegistrationFacts.LastHostWins | src/rt.rs:74-83 | over whole runs, the last of the hosts registered under a key is the one found there |
| RegistrationFacts.RequestFindsItsHost | src/service/http.rs:79-82 | after any run of registrations a normalised authority finds the last host of that name on the listener, and on the crossed ports the one registered with the port in its name |
| RegistrationFacts.FoundExactly | src/listener/tcp.rs:94-99 | after any run of registrations the host last registered under a hostname bears it, and is found under its normalised authority exactly off plain http on TCP 443 and https on TCP 80 |
| RegistrationFacts.FoundBearsTheName | src/service/http.rs:79-82 | whatever host an authority finds bears the hostname it stands for; on the crossed ports that is the hostname with the port |
| RegistrationFacts.RemoveUndoesAddExactly | src/listener/tcp.rs:92-111 | removing by hostname undoes adding exactly on the ports left out of keys |
| VetisBuilder.Builder.Find | src/rt.rs:74-76 | the search loop returns the first equal entry |
| VetisBuilder.Builder.MergeListener | src/rt.rs:74-83 | in place, on objects: the views become the merged vector |
| VetisBuilder.Builder.AddHost | src/rt.rs:44-118 | the loop over bind addresses is the specified registration, early error return included |
| VetisBuilder.Builder.AddHosts | src/rt.rs:203-214 | host after host, up to the first that cannot be made or added |
| VetisBuilder.Builder.AddTcp | src/rt.rs:56-84 | the TCP half of a bind address and the port it reserved |
| VetisBuilder.Builder.AddUdp | src/rt.rs:87-114 | the UDP half, sharing a port TCP reserved |
| TlsSetup.CreateTlsConfig | src/tls.rs:26-76 | for any iteration order: succeeds exactly if every TLS host is accepted, and collects just their names, certificates and protocols, the latter without duplicates |
| TlsSetup.NamesAreTheTlsHostnames | src/tls.rs:49-61 | the resolved names are exactly the TLS hostnames if and only if each can be read back from its key, and then each has the last host's certificate |
| TlsSetup.AlpnsAreTheUnion | src/tls.rs:53-57 | the protocols offered are the union over the listener's TLS hosts |
| Routing.HostUnderConstruction.AddPath | src/host/mod.rs:164-173 | stores the path under its own URI and keeps every key equal to its path's URI |
| Routing.ChoiceIsLongestPrefix | src/host/mod.rs:292-311 | for every sequence of additions the choice is the last path under the longest registered URI that is a prefix; URI followed by target is the request path |
| Routing.ChoiceIsUnique | src/host/mod.rs:292-306 | that description determines the choice |
| Routing.RouteOutcome | src/host/mod.rs:284-362 | one handler call if the path has no ".." and a URI is a prefix, else none; the call is for the longest such URI and what follows it; failure exactly for handler errors outside the mapped families; the page and status of each other error |
| Routing.HandlerAfterAdditions | src/host/mod.rs:284-319 | for every sequence of additions the handler called is the last path under the longest prefix, with the rest of the request path |
| Routing.DotDotExactly | src/host/mod.rs:284-290 | the paths refused are exactly those that contain ".." |
| Services.MergeStrictly | src/service/http.rs:131-153 | succeeds exactly if all defaults are valid, and then each name has its last default, else the handler's values |
| Services.MergeLeniently | src/service/quic.rs:98-118 | the same with invalid defaults passed over |
| Services.LenientIsStrictOnValidOnes | src/service/quic.rs:104-112 | HTTP/3 gives what HTTP would give with exactly the invalid defaults left out |
| Services.CallHttp | src/service/http.rs:50-190 | host choice by authority, else by Host header, 400 with neither; calls, statuses and all failure cases |
| Services.RedirectedExactly | src/service/http.rs:84-109 | a request that a handler could take is redirected exactly if it came over http or ws to a host with TLS and HSTS that allows such connections |
| Services.FoldIgnoresJustCase | src/service/http.rs:131-153 | header names fold alike exactly if they differ only in case |
| Services.DefaultIsDelivered | src/service/http.rs:131-153 | a valid default is the value delivered for its name unless a later valid one replaces it |
| Services.OtherHeadersAreKept | src/service/quic.rs:94-120 | a name without a valid default keeps what the handler set |
| Services.CallQuic | src/service/quic.rs:44-136 | never fails; routing errors become 500; calls and statuses |
| Services.ServicesAgree | src/service/http.rs:124-153 | where both route to one host, the handler runs in both, once, or in neither; HTTP's response is HTTP/3's; HTTP alone fails exactly on routing errors and invalid defaults |
| Services.AuthorityWins | src/service/http.rs:57-77 | with a URI authority the Host header changes neither calls, failure, status nor the routed response |
| EndToEnd.HttpRequestReachesItsHost | src/service/http.rs:57-82 | from registrations to the host that serves a TCP request: the last one of that very hostname, or none |
| EndToEnd.QuicRequestReachesItsHost | src/service/quic.rs:51-70 | the same for https on every UDP port |
| EndToEnd.HttpRequestIsServed | src/service/http.rs:50-153 | from registrations to the answer: 502 without a host of that name, else its redirect or the response of its route |
| EndToEnd.QuicRequestIsServed | src/service/quic.rs:44-136 | the same over HTTP/3, with 400 and no redirect |
| EndToEnd.TlsNamesTheLastHosts | src/tls.rs:26-63 | after any run of registrations the names resolved are those whose last registered host has TLS, if and only if all can be read back, and then with its certificate |
| EndToEnd.BareColonLosesItsCertificate | src/tls.rs:49-61 | a registration: the TLS host `::1` on TCP 443 is not among the names, `:` is |
| EndToEnd.HttpOn443Misses | src/service/http.rs:79-82 | a registration: a host on TCP 443 is not found by an http request for its name |
| EndToEnd.TlsOffersTheirProtocols | src/tls.rs:53-57 | and the protocols offered are those of these hosts |
| Server.Vetis.Start | src/rt.rs:238-342 | which listeners run after a start that fails at listener i, on which sockets, and which listener is the one that fails |
| Server.Vetis.Stop | src/rt.rs:354-368 | visits every listener, shuts down exactly the running ones, returns no error |
| Server.StartThenStop | src/rt.rs:328-368 | after any partial start a stop shuts down exactly the listeners before the failure and leaves none running |
| Server.FromConfig | src/rt.rs:203-214 | succeeds exactly if every host can be made and gets its configurations and ports; the server then has the specified listeners, none started |
| Server.StartConfigured | src/rt.rs:203-251 | each listener that runs after registrations and a start, failing or not, serves a socket bound to its configured real port, no two of a transport the same |
| ByteStream.ReaderStream.PollNext | src/io.rs:33-50 | chunks of 1 to 8192 bytes that continue the reading; the end exactly on an empty read |
| ByteStream.SendBody | src/worker/udp.rs:244-259 | for any schedule the peer has received exactly what was read; the loop finishes exactly at the first empty read, fails exactly at the first chunk not sent, and else runs on |
| ByteStream.EndsOnlyAfterTheLastByte | src/io.rs:40-44 | on a file the loop's end is exactly a read answer after the last byte |
| ByteStream.FailingReadsNeverEnd | src/worker/udp.rs:244-253 | once all later polls fail or wait, the loop does not end |
| ByteStream.SendWholeFile | src/host/mod.rs:241-249 | an error-free page reaches the peer as exactly the file's bytes, in order, in a bounded number of reads |

## Left out

- Sockets, TLS and QUIC handshakes, HTTP codecs, certificate parsing and file access: environment choices.
- The internals of crossfire, papaya, tokio, rustls and the path router: assumed as stated above.
- Streams still queued when a listener is at rest: they stay in the model's queue, which the program frees.
- The text of a redirect target (src/service/http.rs:101-105): only whether it can be printed matters here.
- Case folding of hostnames: keys and authorities are compared as the code compares them, letter by letter.
- `serve_raw` and the request loop of `serve_connection`: each request is served on its own, one after another.
- Logging, metrics, the address banner, builder flags, `HandlerPathBuilder` checks and hashing.
- Reading certificate and key files in `Host::new`, and `add_tls`: a host is given its TLS pair or none.
- Real time: an environment that never completes a TLS handshake keeps an un-aborted task in its handshake.
