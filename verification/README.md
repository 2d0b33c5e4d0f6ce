# Verified model of the WebRTC driver, DTLS handshake and media examples

A Dafny model of the parts of the repository whose correctness does not show in any one function:
protocols between tasks, a handshake state machine, in-place algorithms, and text formats printed on
one side and parsed on the other.

| files | modules | what they model |
|---|---|---|
| `wake_protocol.dfy`, `wake_progress.dfy`, `wake_queues.dfy` | `WakeProtocol`, `WakeProgress`, `WakeQueues` | API callers, closers and the driver loop sharing a core, a flag, a counter and a bounded channel |
| `gathering.dfy` | `Gathering` | the flags that decide when end-of-candidates is added |
| `udp_receive.dfy` | `UdpReceive` | receive futures, buffers and bursts of the driver's UDP sockets |
| `dtls_spec.dfy`, `dtls_runs.dfy`, `dtls_reports.dfy`, `dtls_conn.dfy` | `Dtls`, `DtlsRuns`, `DtlsReports`, `DtlsConn` | the handshake machine as a function, its properties over all runs, the reporting of completion, and the connection and endpoint objects that refine it |
| `dtls_wire.dfy`, `dtls_flights.dfy`, `dtls_epochs.dfy` | `DtlsWire`, `DtlsFlights`, `DtlsEpochs` | what that machine puts on the wire: packets, numbers, timers and epochs over all runs |
| `sha1.dfy`, `sha1_window.dfy`, `bytes.dfy` | `Sha1`, `Sha1Window`, `Bytes` | SHA-1 in place against both methods of RFC 3174 |
| `websocket.dfy`, `websocket_bytes.dfy` | `WebSocket`, `WebSocketBytes` | frames over a byte stream split arbitrarily, and what their bits mean |
| `demux.dfy`, `demux_meaning.dfy` | `Demux`, `DemuxMeaning` | the Ogg playlist demultiplexer, and its tracks told from their pages |
| `player.dfy`, `player_commands.dfy` | `Player`, `PlayerCommands` | the streaming task and the command task sharing two atomics, and what commands ask for |
| `message.dfy`, `comments.dfy` | `PlaylistMessage`, `PlaylistComments` | playlist messages, printed in Rust and parsed in JavaScript |
| `splice.dfy`, `splice_wire.dfy`, `splice_timer.dfy` | `Splice`, `SpliceWire`, `SpliceTimer` | several RTP tracks spliced into one while a timer swaps them, the order in which they are written, and the tracks the timer goes through |
| `interceptor.dfy` | `Interceptor` | chains of interceptors over the terminal one |
| `options.dfy`, `text.dfy`, `seqs.dfy`, `modular.dfy` | `Options`, `Text`, `Seqs`, `Modular` | optional values, decimal numerals and splitting, regrouping, remainders |

Where tasks race (`WakeProtocol`, `Player`, `Splice`) the model is a state machine whose actions are the
single atomic accesses, locked sections and channel operations of the code; a run is any interleaving of
any number of tasks, and the theorems quantify over all runs. Where one thread updates an object or an
array in place the model is a class or a method with loops, proved against a function, and the theorems
are about that function. Generating and parsing handshake flights, the clock, sockets, and the length of
a page in nanoseconds are parameters that may answer anything.

Some promises hold only under a condition. Each is stated as an if-and-only-if, beside a run or an input
that shows the failure:

- output that `close` leaves in the core reaches the sockets only if the flag is set between the
  driver's check and its drain (`FarewellFlushedIff`, `FarewellCanBeLost`);
- output can wait in the core of a driver that is blocked with nothing to wake it, exactly when it does not
  come from a call that ends in a wake (`SticksIff`, `SticksQuietlyIff`);
- a DTLS connection that consumed an incomplete flight has no retransmit timer and only more handshake
  packets move it (`TimerArmedIff`, `TimeMovesWaitingIff`, `PartialFlightStalls`);
- `handshake` entered after completion does not return (`FinishedTerminatesIff`, `SpinsForever`); the endpoint
  never does that (`TimerFiresOnlyInWaiting`), which also means that a completed server never resends its
  last flight (`EndStatesAbsorb`, `ServerCompletes`, `CompletedServerIsSilent`), although section 4.2.4 of
  RFC 6347 asks it to;
- the completion of a handshake is reported only if the operation that completes it is a read, and one
  whose queued packets are taken without error (`ReportedIff`, `QueueErrorLosesReport`,
  `TimeoutLosesReport`);
- spliced packets of one track keep their spacing only if the packet received just before carries the
  timestamp of the one stamped before (`SpacingKeptIff`, `SpacingCanBreak`), and spliced packets are written
  in the order of their numbers only if no write overtakes an older one (`WireOrderIff`, `WireCanReorder`);
- comments survive the playlist message only without separators in them (`CommentsSurviveIff`,
  `CommaIsLost`, `TrailingSpaceIsLost`).

The comment on `wake_writes` calls a dropped wake safe because a notification is queued or the driver is
already draining; the model shows it safe for the weaker reason that a full channel holds some event.

## Model

| member | source | states |
|---|---|---|
| WakeProtocol.NoLostFlush | rust-webrtc/src/peer_connection/mod.rs:500-510 | In every interleaving of any number of callers, closers and the driver: a driver past its drain with API output in the core has an event waiting, or a caller that has not finished its swap or poke, even when a full channel dropped the wake. |
| WakeProtocol.FlushedExactlyOnceInOrder | rust-webrtc/src/peer_connection/driver.rs:897-906 | Over every run what the core accepted is what was flushed followed by what it holds: nothing lost, repeated or reordered. |
| WakeProtocol.QuietDriverHoldsNoWokenOutput | rust-webrtc/src/peer_connection/driver.rs:199-206 | A driver blocked on an empty channel with all callers at rest holds no output of a call that ends in a wake. |
| WakeProtocol.WakesCoalesce | rust-webrtc/src/peer_connection/mod.rs:500-506 | Over every run at most one `WriteNotify` is enqueued more than there were loop-top clears. |
| WakeProtocol.YieldsEveryInterval | rust-webrtc/src/peer_connection/mod.rs:506-510 | Any stretch of a run with exactly 128 coalesced sends contains exactly one yield, across wrap-around of the 64-bit counter. |
| WakeProtocol.CounterStep | rust-webrtc/src/peer_connection/mod.rs:506-508 | The wrapped counter and the exact count of coalesced sends agree on which sends yield, because 128 divides 2^64. |
| WakeProtocol.ShutdownNeverStranded | rust-webrtc/src/peer_connection/mod.rs:670-712 | Once `close` or a dedicated reactor's `Drop` has attempted its wake, `closing` is set and no reachable state has the driver blocked on an empty channel, whether or not the wake was enqueued. |
| WakeProtocol.AtMostOneDrainAfterClosing | rust-webrtc/src/peer_connection/driver.rs:192-204 | After the closing flag is set at most one more drain happens. |
| WakeProtocol.OwedWakeKept | rust-webrtc/src/peer_connection/mod.rs:500-510 | Every step keeps the heart of it: while the driver is past its clear, a set flag means that an event is in the channel or that the caller who set it has still to poke. |
| WakeProtocol.CoverKept | rust-webrtc/src/data_channel/mod.rs:344-357 | Every step keeps that API output behind the driver's drain is covered by the set flag, an event in the channel, or a caller before its swap. |
| WakeProtocol.ConservationKept | rust-webrtc/src/peer_connection/driver.rs:897-906 | Every step keeps accepted = flushed + held. |
| WakeProtocol.DrainsKept | rust-webrtc/src/peer_connection/driver.rs:192-204 | Every step keeps the bound on drains after closing. |
| WakeProtocol.ClosingKept | rust-webrtc/src/peer_connection/mod.rs:695-712 | Every step keeps that a finished shutdown wake leaves an event in the channel of a driver that has passed its check. |
| WakeProtocol.WakesKept | rust-webrtc/src/peer_connection/mod.rs:500-506 | Every step keeps the accounting of flag winners, notifications and clears. |
| WakeProtocol.YieldsKept | rust-webrtc/src/peer_connection/mod.rs:506-510 | Every step keeps yields = coalesced sends / 128. |
| WakeProtocol.RunInv | rust-webrtc/src/peer_connection/driver.rs:187-263 | The whole invariant holds after every run. |
| WakeProgress.ShutdownCompletes | rust-webrtc/src/peer_connection/driver.rs:192-263 | After a shutdown wake attempt the driver takes at most six more steps in any continuation, and until it has returned it is never blocked. |
| WakeProgress.ShutdownRun | rust-webrtc/src/peer_connection/driver.rs:192-263 | Each driver step after the attempt lowers the distance to the loop's return. |
| WakeProgress.FlushedWithinSixDriverSteps | rust-webrtc/src/peer_connection/driver.rs:199-263 | From every state a run without an error reaches: whatever is in the core is flushed, in order, by the time the driver has taken six more steps, unless a shutdown was requested. |
| WakeProgress.WokenOutputNeverStuck | rust-webrtc/src/peer_connection/mod.rs:500-510 | With the callers at rest, a live driver whose core holds their output can always step by itself; and the driver is live as long as it met no error and no shutdown was requested. |
| WakeProgress.SticksIff | rust-webrtc/src/peer_connection/driver.rs:199-222 | For every piece of output and either kind of driver: some run leaves it in the core of a live driver that can do nothing more by itself, with all callers at rest, if and only if it does not come from a call that ends in a wake. |
| WakeProgress.SticksQuietlyIff | rust-webrtc/src/peer_connection/driver.rs:199-222 | With closers at rest too, if and only if it comes from a producer that never wakes the driver: what `close` produced is then behind no blocked driver. |
| WakeProgress.FarewellCanBeLost | rust-webrtc/src/peer_connection/mod.rs:695-712 | For any farewell output a run after which it is in the core and no continuation flushes anything. |
| WakeProgress.NoFlushAfterClosing | rust-webrtc/src/peer_connection/driver.rs:192-197 | With `closing` set and no drain ahead in the iteration, nothing more ever reaches the sockets. |
| WakeProgress.FarewellFlushedIff | rust-webrtc/src/peer_connection/mod.rs:695-712 | Output present when `close` sets its flag, its own included, can still be flushed if and only if the driver is between its check and its drain, or there is none. |
| WakeProgress.ReturnsOnlyWhenClosing | rust-webrtc/src/peer_connection/driver.rs:192-263 | Over every run in which the driver meets no error, it has returned only if a `close` or a `Drop` has set the closing flag: no other event ends the loop. |
| WakeProgress.ClosingNeedsCloser | rust-webrtc/src/peer_connection/mod.rs:670-712 | Without such a call the flag stays clear. |
| WakeProgress.EndsForGood | rust-webrtc/src/peer_connection/driver.rs:205-211 | After an error in the loop, or once `close` has aborted the driver's task, no continuation has a driver step or a flush. |
| WakeProgress.BlocksIffIdle | rust-webrtc/src/peer_connection/driver.rs:209-222 | Told from the actions: over every run a live driver waits in its select if and only if its latest step was a poll that found no deadline due at once. |
| WakeProgress.WakeWaitsIff | rust-webrtc/src/peer_connection/mod.rs:670-712 | From the moment a shutdown sets the flag until it has sent its wake, however long that takes: the wake of a `Drop` is never blocked, that of `close` exactly while the channel of a live driver is full. |
| WakeQueues.EverythingProducedIsFlushedOrHeld | rust-webrtc/src/peer_connection/driver.rs:897-906 | Told from the run's actions alone: what reached the sockets and then what the core holds is everything callers, closers and the driver itself produced, in the order they did. |
| WakeQueues.EventsHandledInOrder | rust-webrtc/src/peer_connection/driver.rs:798-856 | Told from the actions alone: the events taken and then those waiting are the events posted, so the bounded channel loses, repeats and reorders nothing it accepted. |
| Gathering.Driver.FinishGatheringIfReady | rust-webrtc/src/peer_connection/driver.rs:448-458 | Adds end-of-candidates exactly when gathering is active and both completions are in, and then ends it. |
| Gathering.Driver.HandleGatherEvent | rust-webrtc/src/peer_connection/driver.rs:416-446 | Each event's effect on the three flags and on the candidates handed to the core. |
| Gathering.FlagsTellHistory | rust-webrtc/src/peer_connection/driver.rs:804-807 | After every event sequence the flags say exactly which completions were handled since the latest `IceGathering`, and whether its end is still owed. |
| Gathering.EndsExactlyWhenBothComplete | rust-webrtc/src/peer_connection/driver.rs:448-458 | An event adds end-of-candidates if and only if it completes the pair of completions since the latest `IceGathering`, over every order of restarts and completions. |
| Gathering.AtMostOneEndPerGathering | rust-webrtc/src/peer_connection/driver.rs:416-458 | Between two ends there is always another `IceGathering`. |
| Gathering.EverythingHanded | rust-webrtc/src/peer_connection/driver.rs:416-458 | After every event sequence what was handed to the core is every candidate the events brought, in order, with an end-of-candidates exactly where the history of completions makes one due. |
| Gathering.HandleAll | rust-webrtc/src/peer_connection/driver.rs:416-458 | The driver object over any event sequence ends with exactly those candidates and the flags of the specification. |
| UdpReceive.UdpReceiver.constructor | rust-webrtc/src/peer_connection/driver.rs:126-176 | One buffer and one receive future per socket, mDNS last; the active count is their number. |
| UdpReceive.UdpReceiver.Feed | rust-webrtc/src/peer_connection/driver.rs:269-283 | Hands on the oldest queued datagram of a socket and keeps arrived = fed + queued for every socket. |
| UdpReceive.UdpReceiver.Burst | rust-webrtc/src/peer_connection/driver.rs:293-316 | Feeds the next datagrams in order, at most 64 and no more than are ready. |
| UdpReceive.UdpReceiver.OnPacket | rust-webrtc/src/peer_connection/driver.rs:269-317 | One wake feeds between 1 and 65 datagrams of its socket in arrival order, re-arms that socket's future with its buffer, and keeps every invariant. |
| UdpReceive.UdpReceiver.OnRetryableError | rust-webrtc/src/peer_connection/driver.rs:318-327 | A transient error re-arms the same socket and changes nothing else. |
| UdpReceive.UdpReceiver.OnFatalError | rust-webrtc/src/peer_connection/driver.rs:329-336 | A fatal error retires one socket; the loop leaves with an error if and only if that was the last one and TCP is empty. |
| UdpReceive.FuturesAndFailuresCountSockets | rust-webrtc/src/peer_connection/driver.rs:167-176 | Every socket has failed or owns exactly one future with its own buffer, so futures and failures add up to the sockets. |
| Dtls.TopEpochIsLargest | rust-webrtc/rtc/rtc-dtls/src/handshaker.rs:113-160 | The epoch a prepared flight leaves behind is the largest of the initial one and its packets'. |
| Dtls.NumbersConsecutive | rust-webrtc/rtc/rtc-dtls/src/handshaker.rs:138-149 | Handshake messages of a flight carry consecutive numbers modulo 2^16, starting where the last flight ended. |
| Dtls.IterationDecreases | rust-webrtc/rtc/rtc-dtls/src/handshaker.rs:75-111 | Every iteration of a handshake not yet completed either returns or lowers the measure of token and state. |
| DtlsRuns.HandshakeTerminates | rust-webrtc/rtc/rtc-dtls/src/handshaker.rs:75-111 | The loop returns within eight iterations from every state of a handshake not completed, whatever the peer and the clock do. |
| DtlsRuns.FinishedTerminatesIff | rust-webrtc/rtc/rtc-dtls/src/handshaker.rs:75-111 | Entered in Finished, the loop returns if and only if the handshake was not completed or the pending packets fail to parse fatally. |
| DtlsRuns.SpinsForever | rust-webrtc/rtc/rtc-dtls/src/handshaker.rs:75-111 | A completed handshake without pending packets repeats its state in every iteration. |
| DtlsRuns.PrepareKeeps | rust-webrtc/rtc/rtc-dtls/src/handshaker.rs:113-160 | `prepare` keeps the invariant and starts a round with no writes. |
| DtlsRuns.SendKeeps | rust-webrtc/rtc/rtc-dtls/src/handshaker.rs:161-174 | `send` keeps the invariant, logging one more write of the buffered flight. |
| DtlsRuns.WaitKeeps | rust-webrtc/rtc/rtc-dtls/src/handshaker.rs:175-224 | `wait` keeps the invariant on every outcome of parsing. |
| DtlsRuns.LoopKeeps | rust-webrtc/rtc/rtc-dtls/src/handshaker.rs:75-111 | A whole call of `handshake` keeps the invariant and ends at rest. |
| DtlsRuns.ReadKeeps | rust-webrtc/rtc/rtc-dtls/src/endpoint.rs:153-206 | So does a read, with its second handshake call for queued packets. |
| DtlsRuns.TimeoutKeeps | rust-webrtc/rtc/rtc-dtls/src/endpoint.rs:229-255 | So does a timeout. |
| DtlsRuns.ReachableInv | rust-webrtc/rtc/rtc-dtls/src/endpoint.rs:77-255 | Every connection reachable from one the endpoint stores keeps the invariant, over every sequence of reads, timeouts and transmissions. |
| DtlsRuns.RestStates | rust-webrtc/rtc/rtc-dtls/src/handshaker.rs:84-110 | Between endpoint operations the machine is in Preparing, Waiting, Errored, or Finished and completed. |
| DtlsRuns.TimerFiresOnlyInWaiting | rust-webrtc/rtc/rtc-dtls/src/handshaker.rs:251-282 | A firing timer finds the machine in Waiting, so the Finished branch of `handshake_timeout` is never taken and `handshake` is never entered where it would not return. |
| DtlsRuns.RetransmissionBoundedAndIdentical | rust-webrtc/rtc/rtc-dtls/src/handshaker.rs:161-174 | Between two `prepare` steps a flight is written at most 1 + `maximum_retransmit_number` times, every time the same packets with the same numbers. |
| DtlsRuns.EndStatesAbsorb | rust-webrtc/rtc/rtc-dtls/src/endpoint.rs:153-255 | Errored and completed are absorbing and no flight is written from then on: a completed server never resends its last flight. |
| DtlsRuns.TimerArmedIff | rust-webrtc/rtc/rtc-dtls/src/handshaker.rs:161-224 | A waiting connection has a timer if and only if it last entered Waiting by a send or a re-arm, and none exactly when it consumed packets that yielded no next flight. |
| DtlsRuns.StalledWithoutTimer | rust-webrtc/rtc/rtc-dtls/src/endpoint.rs:229-268 | Without a timer the connection neither retransmits nor moves, whatever time passes, until handshake packets arrive. |
| DtlsRuns.TimeMovesWaitingIff | rust-webrtc/rtc/rtc-dtls/src/endpoint.rs:229-255 | Some passage of time moves a waiting connection if and only if it did not last consume packets in vain. |
| DtlsRuns.IncompleteFlightCancelsTimer | rust-webrtc/rtc/rtc-dtls/src/handshaker.rs:175-224 | Handshake packets that complete no flight cancel the timer and change neither flight nor writes. |
| DtlsRuns.PartialFlightStalls | rust-webrtc/rtc/rtc-dtls/src/handshaker.rs:175-224 | A client whose peer's flight arrives only in part reaches that stall. |
| DtlsRuns.StoredInRole | rust-webrtc/rtc/rtc-dtls/src/endpoint.rs:87-168 | Every connection the endpoint stores, resumed or not, is in a flight of its own role. |
| DtlsRuns.CompletesInLastFlight | rust-webrtc/rtc/rtc-dtls/src/handshaker.rs:75-111 | From the moment the endpoint stores it, a client completes only in flight 5 and a server only in flight 6, over every run. |
| DtlsWire.WireCarriesWrites | rust-webrtc/rtc/rtc-dtls/src/handshaker.rs:161-174 | Over every run on a stored connection what was transmitted and then what is queued is a merge of all writes of the flights with all alerts raised, each in order: none lost and none repeated. |
| DtlsWire.LoopBalanced | rust-webrtc/rtc/rtc-dtls/src/handshaker.rs:75-111 | A whole call of `handshake` keeps that balance. |
| DtlsWire.ReadBalanced | rust-webrtc/rtc/rtc-dtls/src/endpoint.rs:153-206 | So does a read, failed or not. |
| DtlsWire.TimeoutBalanced | rust-webrtc/rtc/rtc-dtls/src/endpoint.rs:229-255 | So does a timeout. |
| DtlsFlights.FlightsAreGenerated | rust-webrtc/rtc/rtc-dtls/src/handshaker.rs:113-174 | Over every run on a stored connection the n-th flight is written as the packets generated for it, at their epochs, with handshake messages numbered on from all messages of the flights before it since the last flight 2; between operations every flight prepared has been written. |
| DtlsFlights.TimerDue | rust-webrtc/rtc/rtc-dtls/src/handshaker.rs:161-174 | An armed timer is due exactly one retransmit interval after the clock was last asked. |
| DtlsFlights.FiringResends | rust-webrtc/rtc/rtc-dtls/src/handshaker.rs:251-290 | A timer that fires below the limit queues the same flight once more and counts one retransmission. |
| DtlsFlights.FiringGivesUp | rust-webrtc/rtc/rtc-dtls/src/handshaker.rs:266-271 | At the limit it ends in Errored with an error and writes nothing. |
| DtlsFlights.UnansweredFlight | rust-webrtc/rtc/rtc-dtls/src/handshaker.rs:251-290 | A flight that stays unanswered is written once for every expiry while the limit has room and given up at the next one: k expiries leave it waiting if and only if the limit had room for k. |
| DtlsFlights.Flight2StartsOver | rust-webrtc/rtc/rtc-dtls/src/handshaker.rs:272-276 | Flight 2 is never written again: its timer only starts over. |
| DtlsEpochs.EpochFollowsFlights | rust-webrtc/rtc/rtc-dtls/src/handshaker.rs:134-157 | Over every run on a stored connection the local epoch is the highest of the latest flight that went above the initial epoch, 0 after a flight 0 or 1 that did not, and otherwise the one it started with. |
| DtlsReports.ReportedIff | rust-webrtc/rtc/rtc-dtls/src/endpoint.rs:172-187 | Over every run of operations completion is reported at most once, and exactly when the operation that completes the handshake is a read whose queued packets are taken without error. |
| DtlsReports.CompletingReadOkIff | rust-webrtc/rtc/rtc-dtls/src/endpoint.rs:176-184 | A read that completes the handshake succeeds if and only if its queued packets are taken without error: nothing else can fail it any more. |
| DtlsReports.CompletingLoopIsOk | rust-webrtc/rtc/rtc-dtls/src/handshaker.rs:75-111 | A call of `handshake` that completes returns no error. |
| DtlsReports.ReportsIff | rust-webrtc/rtc/rtc-dtls/src/endpoint.rs:172-187 | One operation reports completion if and only if it completes the handshake and is a read with such a queue. |
| DtlsReports.CompletedOnce | rust-webrtc/rtc/rtc-dtls/src/endpoint.rs:153-255 | A run that ends completed was completed by exactly one of its operations; it holds one report if that was a read whose queued packets are taken without error, and none otherwise. |
| DtlsReports.QueueErrorLosesReport | rust-webrtc/rtc/rtc-dtls/src/endpoint.rs:176-187 | A server completes in a read whose queued packets then fail: the completion is never reported. |
| DtlsReports.TimeoutLosesReport | rust-webrtc/rtc/rtc-dtls/src/endpoint.rs:229-237 | A server completes in a timeout, on packets of a read that failed: the completion is never reported. |
| DtlsReports.ServerCompletes | rust-webrtc/rtc/rtc-dtls/src/handshaker.rs:75-111 | A server whose peer's flights arrive whole goes through flights 0, 2, 4 and 6 in three reads and is completed with its last flight written once. |
| DtlsReports.CompletedServerIsSilent | rust-webrtc/rtc/rtc-dtls/src/endpoint.rs:172-187 | That server then writes no flight in any run; its peer's repeated flight only sets the token and queues nothing. |
| DtlsReports.ClientCompletes | rust-webrtc/rtc/rtc-dtls/src/handshaker.rs:75-111 | A client whose peer's flights arrive whole goes through flights 1, 3 and 5 and is completed in its third read. |
| DtlsReports.ReadUsesPackets | rust-webrtc/rtc/rtc-dtls/src/endpoint.rs:153-206 | After a read that succeeds no handshake packets are left for later, those queued before included: the connection is completed or waits without a token. |
| DtlsReports.RefusedDatagram | rust-webrtc/rtc/rtc-dtls/src/endpoint.rs:170-175 | A read whose datagram is refused fails without moving the machine; its alerts are queued in order at the local epoch and its handshake packets wait for the next call. |
| DtlsReports.ParseFailureAlerts | rust-webrtc/rtc/rtc-dtls/src/handshaker.rs:175-224 | Packets that do not parse are answered by the parser's alert at the local epoch; the call fails if and only if the failure is fatal, and the flight stays. |
| DtlsReports.GenerateFailureAlerts | rust-webrtc/rtc/rtc-dtls/src/handshaker.rs:113-133 | A flight that cannot be generated is answered by its alert and fails the call in Preparing. |
| DtlsConn.DTLSConn.constructor | rust-webrtc/rtc/rtc-dtls/src/conn/mod.rs:92-151 | A new connection starts in Preparing with its role's first flight, one with a saved state in Finished with the last flight and the saved epoch and sequence number. |
| DtlsConn.DTLSConn.WritePackets | rust-webrtc/rtc/rtc-dtls/src/conn/mod.rs:237-241 | Appends the packets to the outgoing queue in order. |
| DtlsConn.DTLSConn.SendAlert | rust-webrtc/rtc/rtc-dtls/src/conn/mod.rs:222-235 | Queues an alert at the local epoch. |
| DtlsConn.DTLSConn.Stamp | rust-webrtc/rtc/rtc-dtls/src/handshaker.rs:136-149 | The numbering loop computes the numbered flight, the next sequence number and the largest epoch. |
| DtlsConn.DTLSConn.Prepare | rust-webrtc/rtc/rtc-dtls/src/handshaker.rs:113-160 | Refines the function the run theorems are about. |
| DtlsConn.DTLSConn.Send | rust-webrtc/rtc/rtc-dtls/src/handshaker.rs:161-174 | Refines the send step, timer included. |
| DtlsConn.DTLSConn.Wait | rust-webrtc/rtc/rtc-dtls/src/handshaker.rs:175-224 | Refines the wait step on every parse result. |
| DtlsConn.DTLSConn.Finish | rust-webrtc/rtc/rtc-dtls/src/handshaker.rs:225-249 | Refines the finish step. |
| DtlsConn.DTLSConn.Step | rust-webrtc/rtc/rtc-dtls/src/handshaker.rs:96-102 | Each state's step, that of Finished included, refines the step of the specification. |
| DtlsConn.DTLSConn.Handshake | rust-webrtc/rtc/rtc-dtls/src/handshaker.rs:75-111 | The loop terminates and leaves the state and result of the recursive specification. |
| DtlsConn.DTLSConn.HandshakeTimeout | rust-webrtc/rtc/rtc-dtls/src/handshaker.rs:251-290 | Counts a retransmission, re-arms, or resends, then runs the loop, as specified. |
| DtlsConn.DTLSConn.Accept | rust-webrtc/rtc/rtc-dtls/src/conn/mod.rs:440-476 | Sets the token for handshake packets and queues the alerts raised. |
| DtlsConn.DTLSConn.TakeOutgoing | rust-webrtc/rtc/rtc-dtls/src/conn/mod.rs:162-171 | Takes the outgoing packets in order and empties the queue. |
| DtlsConn.Endpoint.Connect | rust-webrtc/rtc/rtc-dtls/src/endpoint.rs:77-108 | Refuses port zero, leaves a known remote alone, and otherwise stores the connection and queues its packets if and only if its first handshake call succeeds; keeps, for every remote, queued-to-transmit plus held = writes and alerts in order. |
| DtlsConn.Endpoint.Read | rust-webrtc/rtc/rtc-dtls/src/endpoint.rs:153-206 | Admits unknown remotes only as a server, runs the machine on that connection alone, transmits on success, and reports completion when it succeeded and completed the handshake; all other connections are untouched, every stored one stays valid, and the account of every remote is kept. |
| DtlsConn.Endpoint.ReadNew | rust-webrtc/rtc/rtc-dtls/src/endpoint.rs:160-168 | A server's new connection is stored even if the read on it fails. |
| DtlsConn.Endpoint.HandleTimeout | rust-webrtc/rtc/rtc-dtls/src/endpoint.rs:229-255 | Fires the timer exactly when due, runs the machine and transmits, keeping the account of every remote; an unknown remote is an error. |
| DtlsConn.Endpoint.PollTimeout | rust-webrtc/rtc/rtc-dtls/src/endpoint.rs:257-268 | The earlier of the given instant and the timer; an earlier answer is an instant at which the timer would fire. |
| DtlsConn.Endpoint.PollTransmit | rust-webrtc/rtc/rtc-dtls/src/endpoint.rs:56-60 | Gives the oldest packet queued, or none exactly when there is none, and keeps the account of every remote. |
| Sha1.PadFillsBlocks | rust-webrtc/examples/trickle_ice_common/mod.rs:468-474 | The padded length is the least multiple of 64 that holds the data and nine more bytes. |
| Sha1.PadInjective | rust-webrtc/examples/trickle_ice_common/mod.rs:468-474 | Different messages are padded differently. |
| Sha1.BitLengthRecovered | rust-webrtc/examples/trickle_ice_common/mod.rs:468-474 | The last eight bytes are the bit length. |
| Sha1.PadMessage | rust-webrtc/examples/trickle_ice_common/mod.rs:468-474 | The padding loop terminates with the padding of section 4 of RFC 3174. |
| Sha1.FillSchedule | rust-webrtc/examples/trickle_ice_common/mod.rs:477-488 | The 80-word array holds the message schedule. |
| Sha1.RunRounds | rust-webrtc/examples/trickle_ice_common/mod.rs:490-518 | Eighty in-place rounds on five words are the rounds of section 6.1 of RFC 3174. |
| Sha1.CompressChunk | rust-webrtc/examples/trickle_ice_common/mod.rs:476-525 | One chunk is the compression of its block. |
| Sha1.HashMessage | rust-webrtc/examples/trickle_ice_common/mod.rs:476-525 | Chunk by chunk, the running words are the hash of the blocks so far. |
| Sha1.RotateIsCircularShift | rust-webrtc/examples/trickle_ice_common/mod.rs:487-515 | Bit-vector rotation is the circular shift of the standard. |
| Sha1.SumOrder | rust-webrtc/examples/trickle_ice_common/mod.rs:507-512 | The wrapping sum in the code's order is the sum in the standard's order. |
| Sha1.DigestDeterminesWords | rust-webrtc/examples/trickle_ice_common/mod.rs:527-532 | The twenty bytes determine the five final words. |
| Sha1.Compute | rust-webrtc/examples/trickle_ice_common/mod.rs:460-533 | `sha1` computes the digest of RFC 3174 for every input shorter than 2^61 bytes. |
| Sha1Window.MethodsAgree | rust-webrtc/examples/trickle_ice_common/mod.rs:476-525 | The compression is that of the independent sixteen-word method of section 6.2 of RFC 3174, for every block and every running hash. |
| Sha1Window.AbcDigest | rust-webrtc/examples/trickle_ice_common/mod.rs:460-533 | The digest of `abc` is the one RFC 3174 gives. |
| WebSocket.RoundTrip | rust-webrtc/examples/trickle_ice_common/mod.rs:572-658 | A written frame is read back whole for all three length encodings, and nothing after it is touched. |
| WebSocket.MaskedRoundTrip | rust-webrtc/examples/trickle_ice_common/mod.rs:621-625 | A frame masked as section 5.3 of RFC 6455 asks decodes to the payload of its unmasked form. |
| WebSocket.MaskedTwice | rust-webrtc/examples/trickle_ice_common/mod.rs:621-625 | Masking twice with one key is the identity. |
| WebSocket.HeaderParsed | rust-webrtc/examples/trickle_ice_common/mod.rs:582-606 | The length field comes back for every length below 2^64. |
| WebSocket.TruncatedFrame | rust-webrtc/examples/trickle_ice_common/mod.rs:572-620 | Every proper prefix of a frame reads as the end of the stream. |
| WebSocket.CutStreamRead | rust-webrtc/examples/trickle_ice_common/mod.rs:283-298 | A stream cut anywhere is read to its end, as exactly the frames that are whole in it. |
| WebSocket.StreamRoundTrip | rust-webrtc/examples/trickle_ice_common/mod.rs:557-658 | The frames of any list of texts, one after the other, read back as that list with no byte left over. |
| WebSocket.AllWhole | rust-webrtc/examples/trickle_ice_common/mod.rs:283-298 | With nothing cut off every frame is whole. |
| WebSocket.TcpStream.Read | rust-webrtc/examples/trickle_ice_common/mod.rs:560-566 | A read gives an arbitrary non-empty piece, nothing at the end, or an error. |
| WebSocket.ReadExact | rust-webrtc/examples/trickle_ice_common/mod.rs:557-570 | Fills the buffer with the next bytes however they are split, or reports the end of the stream or an error. |
| WebSocket.Unmask | rust-webrtc/examples/trickle_ice_common/mod.rs:621-625 | In-place unmasking gives the masked specification. |
| WebSocket.ReadWsFrame | rust-webrtc/examples/trickle_ice_common/mod.rs:572-637 | Reads one frame exactly as the parsing specification, over any split of the bytes. |
| WebSocket.WriteWsFrame | rust-webrtc/examples/trickle_ice_common/mod.rs:639-658 | Writes the encoding of the text, or on failure a prefix of it. |
| WebSocket.ReceiveAll | rust-webrtc/examples/trickle_ice_common/mod.rs:283-298 | The receive loop stops at the first end, error or refused text and says which; at the end it has read exactly what the stream specification reads, after a refusal the rest is still unread, and after an error every text received is one of the stream's. |
| WebSocket.SendAll | rust-webrtc/examples/trickle_ice_common/mod.rs:300-307 | The write loop sends the frames of the texts in order, or a prefix of those bytes if a write fails. |
| WebSocket.Transfer | rust-webrtc/examples/trickle_ice_common/mod.rs:557-658 | Writer, arbitrarily split stream and reader together: the reader gets exactly the texts whose frames went out whole and leaves nothing unread; all of them if no write fails. |
| WebSocketBytes.XorIsBitwise | rust-webrtc/examples/trickle_ice_common/mod.rs:621-625 | The unmasking operation on byte values is exclusive or of their eight bits. |
| WebSocketBytes.FrameMeans | rust-webrtc/examples/trickle_ice_common/mod.rs:572-637 | On every byte sequence, in terms of its bits: a close frame or one cut short ends the stream; any other is taken whole, from the position and for the length its header gives; a text frame gives octet i of the data exclusive-or octet i mod 4 of the key, every other opcode the empty text. |
| WebSocketBytes.WrittenFrame | rust-webrtc/examples/trickle_ice_common/mod.rs:639-658 | A written frame has first byte 0x81, no mask, the shortest length encoding, and then exactly the text. |
| WebSocketBytes.MaskedHello | rust-webrtc/examples/trickle_ice_common/mod.rs:572-637 | The masked example frame of section 5.7 of RFC 6455 reads as its text. |
| WebSocketBytes.UnmaskedHello | rust-webrtc/examples/trickle_ice_common/mod.rs:639-658 | The unmasked example frame is what is written for its text. |
| Demux.ReadTags | rust-webrtc/examples/play-from-disk-playlist-control/play-from-disk-playlist-control.rs:287-298 | The loop over comments sets title, artist and vendor as specified, the last match winning. |
| Demux.HandlePage | rust-webrtc/examples/play-from-disk-playlist-control/play-from-disk-playlist-control.rs:271-321 | A page changes only its own serial's entry, by that serial's step. |
| Demux.ReadPages | rust-webrtc/examples/play-from-disk-playlist-control/play-from-disk-playlist-control.rs:247-323 | The reading loop leaves, for every serial, what folding that serial's pages alone gives, and the serials in order of appearance. |
| Demux.ParsePlaylist | rust-webrtc/examples/play-from-disk-playlist-control/play-from-disk-playlist-control.rs:247-338 | The playlist of the pages read, or the reader's error. |
| Demux.InterleavingIndependent | rust-webrtc/examples/play-from-disk-playlist-control/play-from-disk-playlist-control.rs:247-338 | Two page streams with the same pages per serial give every track the same pages, durations, runtime and tags; titles differ only where they are the numbered default. |
| Demux.TracksInOrderOfAppearance | rust-webrtc/examples/play-from-disk-playlist-control/play-from-disk-playlist-control.rs:324-335 | Tracks come out in the order of their serials' first pages. |
| Demux.CollectSound | rust-webrtc/examples/play-from-disk-playlist-control/play-from-disk-playlist-control.rs:324-335 | Every track comes from a serial that has pages, in order, none twice. |
| Demux.CollectComplete | rust-webrtc/examples/play-from-disk-playlist-control/play-from-disk-playlist-control.rs:324-335 | Every serial with playable pages becomes a track. |
| Demux.OrderDistinct | rust-webrtc/examples/play-from-disk-playlist-control/play-from-disk-playlist-control.rs:272-275 | No serial is listed twice. |
| Demux.RuntimeIsSum | rust-webrtc/examples/play-from-disk-playlist-control/play-from-disk-playlist-control.rs:309-321 | Every track has pages and its runtime is the sum of their durations. |
| Demux.BuffersPlayablePages | rust-webrtc/examples/play-from-disk-playlist-control/play-from-disk-playlist-control.rs:305-321 | A track buffers exactly the audio pages after its first valid header, in order. |
| DemuxMeaning.TagsOfSerial | rust-webrtc/examples/play-from-disk-playlist-control/play-from-disk-playlist-control.rs:287-303 | Over all pages of a serial: title and artist are the values of the last comments of those names in any case of letters, or the defaults; the vendor is the first non-empty one, the tags the last. |
| DemuxMeaning.PlaylistTitles | rust-webrtc/examples/play-from-disk-playlist-control/play-from-disk-playlist-control.rs:324-335 | Every track of the playlist has those tags of its serial; without a title of its own its title is its number, counted from one. |
| DemuxMeaning.HeaderInForce | rust-webrtc/examples/play-from-disk-playlist-control/play-from-disk-playlist-control.rs:280-286 | The header of a track is that of its latest valid header page. |
| DemuxMeaning.DurationsOfSerial | rust-webrtc/examples/play-from-disk-playlist-control/play-from-disk-playlist-control.rs:309-357 | The j-th buffered page lasts 20 ms if its granule position is not above that of the playable page before it, and otherwise the span of the difference at the rate of the header in force, 48 kHz for rate zero. |
| Player.WrapNext | rust-webrtc/examples/play-from-disk-playlist-control/play-from-disk-playlist-control.rs:806-808 | On a valid index, the next one, or the first after the last. |
| Player.WrapPrev | rust-webrtc/examples/play-from-disk-playlist-control/play-from-disk-playlist-control.rs:810-818 | Stays in range and is undone by the step to the next track. |
| Player.Wanted | rust-webrtc/examples/play-from-disk-playlist-control/play-from-disk-playlist-control.rs:708-727 | Every command asks for a track in range or for none; only the least 32-bit number in a checked build panics. |
| Player.CommandsMean | rust-webrtc/examples/play-from-disk-playlist-control/play-from-disk-playlist-control.rs:712-725 | Going back undoes going on; a track number from one to the count selects that track, and numbers outside the nearest end; other commands select none. |
| Player.NumberCommand | rust-webrtc/examples/play-from-disk-playlist-control/play-from-disk-playlist-control.rs:720-724 | A track number in decimal is understood as that number. |
| Player.RangesKept | rust-webrtc/examples/play-from-disk-playlist-control/play-from-disk-playlist-control.rs:656-698 | Every step of either task keeps track, switch and page index in range. |
| Player.StepRefines | rust-webrtc/examples/play-from-disk-playlist-control/play-from-disk-playlist-control.rs:656-734 | Every step of either task is a step, or nothing, of a race-free player. |
| Player.PlayerRefines | rust-webrtc/examples/play-from-disk-playlist-control/play-from-disk-playlist-control.rs:656-734 | Every interleaving of streaming and commands is a run of the race-free player: indices in range, a request taken after at most one more page, no two idle iterations in a row. |
| Player.NextInPlaylist | rust-webrtc/examples/play-from-disk-playlist-control/play-from-disk-playlist-control.rs:662-670 | The page after a page is its successor in the concatenated playlist, the first after the last. |
| Player.CyclicOrder | rust-webrtc/examples/play-from-disk-playlist-control/play-from-disk-playlist-control.rs:656-690 | Without a switch the pages sent are the concatenated playlist read cyclically from the page due. |
| Player.PlaysInOrder | rust-webrtc/examples/play-from-disk-playlist-control/play-from-disk-playlist-control.rs:656-698 | In every run, between two switches the pages sent are the cyclic playlist from the start of the track switched to. |
| Player.TakesLatestRequest | rust-webrtc/examples/play-from-disk-playlist-control/play-from-disk-playlist-control.rs:682-690 | Every switch taken is the latest request, and no earlier switch took it. |
| Player.NoTwoIdleIterations | rust-webrtc/examples/play-from-disk-playlist-control/play-from-disk-playlist-control.rs:662-670 | Between any two iterations that send nothing one sends a page. |
| Player.ParsedPlaylistIsPlayable | rust-webrtc/examples/play-from-disk-playlist-control/play-from-disk-playlist-control.rs:324-335 | What `parse_playlist` gives, when not empty, meets what the player needs. |
| PlayerCommands.SignedNumbers | rust-webrtc/examples/play-from-disk-playlist-control/play-from-disk-playlist-control.rs:720-724 | Decimal text with or without a sign is its number if that fits 32 bits and no number otherwise, the least one included. |
| PlayerCommands.DecidesAsMeant | rust-webrtc/examples/play-from-disk-playlist-control/play-from-disk-playlist-control.rs:701-734 | The command task decides for every text, every track playing and every track count what the words mean: the track after, before or numbered, or nothing. |
| PlayerCommands.RequestsAreMeant | rust-webrtc/examples/play-from-disk-playlist-control/play-from-disk-playlist-control.rs:701-734 | Over every interleaving the requests made, and one still to be stored, are in order exactly the tracks meant by the texts received, none for a text that asks for nothing or for the track that played when it was read. |
| PlayerCommands.WaitingOwesNothing | rust-webrtc/examples/play-from-disk-playlist-control/play-from-disk-playlist-control.rs:701-734 | With the command task waiting for the next text, the requests made are exactly those. |
| PlayerCommands.FailedWriteEndsStream | rust-webrtc/examples/play-from-disk-playlist-control/play-from-disk-playlist-control.rs:672-680 | After a write that fails no continuation has a step of the streaming task. |
| PlayerCommands.LeastNumberIsLast | rust-webrtc/examples/play-from-disk-playlist-control/play-from-disk-playlist-control.rs:720-724 | In a checked build the least 32-bit number is the last text the command task ever takes, and no request follows it. |
| PlaylistMessage.NormalizeIndex | rust-webrtc/examples/play-from-disk-playlist-control/play-from-disk-playlist-control.rs:820-828 | In range whenever there are tracks, and the identity on valid indices. |
| PlaylistMessage.BuildPlaylistMessage | rust-webrtc/examples/play-from-disk-playlist-control/play-from-disk-playlist-control.rs:736-759 | The appending loop prints the playlist line, one line per track and the now-playing line. |
| PlaylistMessage.HandleMessage | rust-webrtc/examples/play-from-disk-playlist-control/web/app.js:100-140 | The script's loop over lines computes the parsed view. |
| PlaylistMessage.TrackParsed | rust-webrtc/examples/play-from-disk-playlist-control/web/app.js:115-123 | A track line parses to that track's index, serial, duration, and cleaned title and artist. |
| PlaylistMessage.NowParsed | rust-webrtc/examples/play-from-disk-playlist-control/web/app.js:124-139 | A now-playing line parses to all its fields. |
| PlaylistMessage.TrimNow | rust-webrtc/examples/play-from-disk-playlist-control/web/app.js:101 | Trimming a message cuts only trailing white space of the comments at its end. |
| PlaylistMessage.PlaylistRoundTrip | rust-webrtc/examples/play-from-disk-playlist-control/play-from-disk-playlist-control.rs:736-804 | For every playlist, the empty one included, the script recovers the current index, every track in order and the track now playing. |
| PlaylistMessage.NowPlayingRoundTrip | rust-webrtc/examples/play-from-disk-playlist-control/play-from-disk-playlist-control.rs:761-766 | The message sent on a track change is recovered too. |
| PlaylistMessage.CleanIsShown | rust-webrtc/examples/play-from-disk-playlist-control/play-from-disk-playlist-control.rs:802-804 | Cleaning a text turns every line break into a space and every bar into a slash, and nothing else. |
| PlaylistMessage.TrackText | rust-webrtc/examples/play-from-disk-playlist-control/web/app.js:115-123 | From the text itself: the fields after `track` are index, serial, milliseconds, title and artist, whatever those are. |
| PlaylistMessage.BareTrack | rust-webrtc/examples/play-from-disk-playlist-control/web/app.js:115-123 | A track line without fields gives zeros and empty texts. |
| PlaylistMessage.BareHead | rust-webrtc/examples/play-from-disk-playlist-control/web/app.js:112-114 | A playlist line without its field gives zero. |
| PlaylistMessage.OtherLinesLogged | rust-webrtc/examples/play-from-disk-playlist-control/web/app.js:140-142 | A line of any other kind is logged and changes nothing else. |
| PlaylistComments.CommentsSurviveIff | rust-webrtc/examples/play-from-disk-playlist-control/web/app.js:134-137 | The comments shown are the ones sent if and only if no key or value holds a comma or an equals sign and the last value does not end in white space. |
| PlaylistComments.CommaIsLost | rust-webrtc/examples/play-from-disk-playlist-control/web/app.js:134-137 | A comment whose value holds a comma, which is not recovered. |
| PlaylistComments.TrailingSpaceIsLost | rust-webrtc/examples/play-from-disk-playlist-control/web/app.js:101-137 | A last comment that ends in a space, which is not recovered. |
| Splice.StepInv | rust-webrtc/examples/swap-tracks/swap-tracks.rs:134-175 | Every step of any track task or of the timer keeps the invariant. |
| Splice.OutputState.StampNext | rust-webrtc/examples/swap-tracks/swap-tracks.rs:168-174 | Under the lock the timestamp moves by exactly the step and the sequence number by one, in wrapping arithmetic. |
| Splice.TrackTask.OnRtpPacket | rust-webrtc/examples/swap-tracks/swap-tracks.rs:134-174 | The packet handler up to its write, run without interference, is a run of the machine; it stamps exactly when its track is the active one. |
| Splice.StampsAreSequential | rust-webrtc/examples/swap-tracks/swap-tracks.rs:134-175 | Under any interleaving the n-th stamped packet has sequence number n modulo 2^16 and the sum of all steps modulo 2^32. |
| Splice.StampedInOrder | rust-webrtc/examples/swap-tracks/swap-tracks.rs:134-175 | A task's packets are stamped in the order they came, each at most once. |
| Splice.StampedIffActive | rust-webrtc/examples/swap-tracks/swap-tracks.rs:142-147 | A packet is ever stamped if and only if its track is the active one when its task reads the index, whatever the timer does before and after. |
| SpliceWire.WireOrderIff | rust-webrtc/examples/swap-tracks/swap-tracks.rs:168-180 | When every stamped packet was written, packets went out in the order of their numbers if and only if no task wrote while an older packet of another was stamped and unwritten. |
| SpliceWire.WrittenInOrder | rust-webrtc/examples/swap-tracks/swap-tracks.rs:168-180 | As long as no write overtakes so, whatever fails, packets are written in the order of their numbers. |
| SpliceWire.WireCanReorder | rust-webrtc/examples/swap-tracks/swap-tracks.rs:168-180 | A run in which the packet numbered 2 is written before the packet numbered 1: the lock covers the stamp and not the write. |
| Splice.OutputStep | rust-webrtc/examples/swap-tracks/swap-tracks.rs:135-174 | Between two packets of one task stamped in a row the output moves by the step from the packet received just before the second. |
| Splice.SpacingKeptIff | rust-webrtc/examples/swap-tracks/swap-tracks.rs:135-174 | Their incoming timestamp difference is kept if and only if that packet carries the first one's timestamp: always when nothing was dropped between them. |
| Splice.SpacingCanBreak | rust-webrtc/examples/swap-tracks/swap-tracks.rs:139-147 | A run in which a track that was inactive for one packet has its gap halved. |
| Splice.ActiveIndexInRange | rust-webrtc/examples/swap-tracks/swap-tracks.rs:375-385 | From the first known track on, the active index is below the track count in every reachable state. |
| Splice.EndedTaskIsSilent | rust-webrtc/examples/swap-tracks/swap-tracks.rs:177-187 | A task whose write fails or whose track has ended takes no step in any continuation. |
| SpliceTimer.CountIsHighest | rust-webrtc/examples/swap-tracks/swap-tracks.rs:104-108 | The track count is one more than the highest number any track was opened with, over every run. |
| SpliceTimer.NumberIsLatest | rust-webrtc/examples/swap-tracks/swap-tracks.rs:104-108 | A task's track number is the one it was last opened with. |
| SpliceTimer.SwapsRotate | rust-webrtc/examples/swap-tracks/swap-tracks.rs:375-385 | While the count stays the same, after k swaps the active track is k further, cyclically. |
| Interceptor.Layer.HandleRead | rust-webrtc/examples/rtcp-processing/rtcp-processing.rs:86-97 | A forwarder queues a copy of RTCP and always passes on; the terminal keeps RTP only; other layers delegate. |
| Interceptor.Layer.PollRead | rust-webrtc/examples/rtcp-processing/rtcp-processing.rs:100-107 | A forwarder's queue first, then the layers below. |
| Interceptor.Layer.HandleWrite | rust-webrtc/rtc/rtc-interceptor/src/noop.rs:66-69 | Every chain hands the packet to the terminal's write queue. |
| Interceptor.Layer.PollWrite | rust-webrtc/rtc/rtc-interceptor/src/noop.rs:71-73 | The oldest packet of the terminal's write queue. |
| Interceptor.Layer.HandleEvent | rust-webrtc/rtc/rtc-interceptor/src/noop.rs:75-77 | Changes no layer of the chain. |
| Interceptor.Layer.PollEvent | rust-webrtc/rtc/rtc-interceptor/src/noop.rs:79-81 | No chain has events. |
| Interceptor.Layer.HandleTimeout | rust-webrtc/rtc/rtc-interceptor/src/noop.rs:83-85 | Changes no layer of the chain. |
| Interceptor.Layer.PollTimeout | rust-webrtc/rtc/rtc-interceptor/src/noop.rs:87-89 | No chain has a timeout. |
| Interceptor.Layer.CloseAll | rust-webrtc/examples/rtcp-processing/rtcp-processing.rs:110-113 | Every queue of every layer is emptied. |
| Interceptor.StripStep | rust-webrtc/rtc/rtc-interceptor-derive/src/lib.rs:336-412 | One call on a chain is the same call on the chain without its pass-through layers. |
| Interceptor.PassLayersInvisible | rust-webrtc/rtc/rtc-interceptor-derive/src/lib.rs:336-412 | No sequence of calls can tell a chain from the one without its pass-through layers. |
| Interceptor.PassesOverNoopAreNoop | rust-webrtc/rtc/rtc-interceptor-derive/src/lib.rs:336-412 | Any depth of pass-through layers over the terminal answers every call sequence as the terminal does. |
| Interceptor.RtpConserved | rust-webrtc/rtc/rtc-interceptor/src/noop.rs:53-64 | For any chain and any calls without a close, RTP delivered and then queued is RTP arrived, in order. |
| Interceptor.RtcpConserved | rust-webrtc/examples/rtcp-processing/rtcp-processing.rs:86-107 | With one forwarder anywhere in the chain the same holds of RTCP: delivered exactly once, in arrival order. |
| Interceptor.CopiesPerForwarder | rust-webrtc/examples/rtcp-processing/rtcp-processing.rs:86-107 | With f forwarders every RTCP packet that arrives is delivered or waiting f times. |
| Interceptor.WritesConserved | rust-webrtc/rtc/rtc-interceptor/src/noop.rs:66-73 | For any chain, packets to send leave in order, none lost and none repeated. |
| Interceptor.CloseEmpties | rust-webrtc/examples/rtcp-processing/rtcp-processing.rs:110-113 | A closed chain is as empty as a new one. |
| Interceptor.PollFindsNothingIff | rust-webrtc/examples/rtcp-processing/rtcp-processing.rs:100-107 | A poll finds nothing if and only if no layer has anything queued. |
| Interceptor.PollTakesRtcpFirst | rust-webrtc/examples/rtcp-processing/rtcp-processing.rs:100-107 | A poll gives the oldest RTCP of the outermost forwarder that has any, and RTP only when no forwarder has any. |
| Interceptor.PolledDry | rust-webrtc/examples/rtcp-processing/rtcp-processing.rs:86-107 | A chain with one forwarder, polled until nothing is left, has delivered exactly the RTP and RTCP that arrived. |
| Interceptor.ForwarderKeepsRtp | rust-webrtc/examples/rtcp-processing/rtcp-processing.rs:86-107 | Putting a forwarder on a chain leaves the RTP it delivers unchanged. |

## Left out

- The foreign-function layer, configuration, serialisation of connection state, logging, command lines and the remaining examples: they hand values on to the parts modelled here or to libraries.
- Memory ordering: runs are sequentially consistent interleavings of atomic steps.
- WakeProgress.ShutdownCompletes: takes every step of the driver to complete; an event handler that waits inside the driver's own polling, such as one that awaits a send on the full driver channel, blocks the driver and is not modelled. The same holds of WakeProgress.ShutdownRun and WakeProgress.FlushedWithinSixDriverSteps.
- The Sans-I/O core, SCTP, the ICE agent, STUN and TURN gatherers, TCP transport and real sockets: what they produce is an arbitrary input of the models.
- Cipher suites, record encryption, fragmentation and the message cache of DTLS: `generate` and `parse` are an arbitrary environment; `CompletesInLastFlight` alone assumes the flight order of the flight parsers.
- `Endpoint::stop`, `Endpoint::close` and `Endpoint::write`: they neither read nor move the handshake machine.
- DtlsConn.DTLSConn.Stamp: does not model 16-bit overflow of the epoch or overflow of the signed send-sequence counter; the wrap of the message number to 16 bits is modelled.
- DtlsConn.DTLSConn.TakeOutgoing: gives the records before encryption and fragmentation, without the application data queued during the handshake.
- UdpReceive.UdpReceiver.Burst: how many polls find a datagram ready is a parameter; the overlap of a burst poll with the re-armed future of the same socket is not modelled.
- WebSocket.ReadWsFrame: fragmentation and the FIN bit are ignored as in the source; the allocation for a huge length always succeeds, and lossy UTF-8 decoding is left out, so texts are byte sequences.
- WebSocket.ReceiveAll: which texts parse as signals is not modelled; a closed receiver shows at whichever text the environment likes.
- Demux.ParsePlaylist: the floating-point page length is an arbitrary function of samples and rate, runtimes do not overflow, and lower-casing of comment keys covers ASCII letters.
- PlaylistMessage.HandleMessage: numbers that are not decimal numerals are kept as text, and the rounding of numbers of 2^53 and more to doubles is left out.
- Lower-casing and trimming of command text before `ParseCommand`, and the pacing sleeps of the player and the swap timer.
- When the player sends its playlist and now-playing messages, and that one of its commands only lists the playlist; what those messages hold is modelled.
- PLI requests of the track-swapping example: they do not touch the stamped stream.
- The HTTP upgrade of the WebSocket example, base64, JSON and SDP.
