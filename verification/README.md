# rsReticulum: verified models of its stateful core

A Dafny project about the parts of rsReticulum whose promises span whole runs: the
Android USB ownership core, the durable ratchet and announce state, and the bounded
tables that must agree with a plain history. Code that updates state is modelled as
classes and methods, each specified by a function on values; the theorems are about
those functions, over every input or every reachable state of a step machine.
`dafny verify dfyconfig.toml` checks everything.

## What is modelled

- **USB generations** (`UsbInterface`, `UsbSessionProofs`, `UsbStops`, `UsbPermits`, `UsbDelivery`,
  `UsbProgress`). One machine holds the application channel, the pump's pending packet, the
  background slot and at most one physical session (queue, writer, gate, pump). A step is one
  critical section, atomic, await outcome or physical write, so a run is one interleaving
  over any number of generations. `UsbTxGate` and `UsbWriteQueue` are the gate and the queue as classes;
  the machine uses the functions that specify them. `UsbTransfer` is the byte-level write
  loop.
- **USB startup** (`UsbStartup`). Reader, writer and driver around the Init barrier, one
  step per atomic load, store or channel operation.
- **USB ownership** (`UsbLeases`, `UsbOwnership`, `UsbSelector`). The lease table, owners
  through shutdown or cancellation at any await point, and device resolution.
- **Ratchets** (`Pkcs7`, `Token`, `RatchetRing`, `Identity`). Padding, tokens, the key ring
  in its fixed buffer, and decryption by trial over the ring.
- **Durable state** (`Persistence`, `PersistentRing`, `RingCrashSafety`, `RotationSchedule`,
  `WireTime`, `AnnounceState`). A file system that may fail or store wrong bytes at any write, atomic
  replacement, the ring and the announce clock saved before they are used, and their
  histories with crashes and reloads. Methods ending in `Step` show that each call is one
  event of the history machine.
- **Announces** (`Announce`, `Destination`). Wire layout, signature, binding, and the
  path-response cache.
- **Tables** (`MultiIfDedup`, `FastFlap`, `KnownDestinations`). Each against a log of events
  or, for the codec, its inverse.

Cryptographic primitives, MessagePack encodings, radio frames, clocks, random bytes and
backends are parameters. Where a theorem needs a law of a primitive (key agreement,
decryption inverts encryption, a signature verifies, an encoding decodes), the law is a
named `Lawful` predicate, and a lemma gives an instance that meets it. Wall-clock seconds
held as floating-point numbers are reals with one extra non-finite value; other times are
integers.

## Where the code meets a property only under a condition

- **Detach.** `begin_detach` empties the queue, but a request the writer has already popped
  is still written after it (`PoppedRequestOutlivesDetach`). `DetachBarrier` is exact: that one
  request, if there is one, and then only the detach.
- **Background lane.** A background packet whose last byte is accepted after the deadline
  keeps its slot and can be transferred again in every later generation
  (`BackgroundCanRepeat`). `BackgroundTransfers` counts exactly: once per late completion, plus
  once if retired.
- **Flow permits.** The writer asks the gate once for a packet and writes it afterwards: a
  background packet when it leaves its slot, an ordinary one on the way to its write. The gate
  can change in between, so an admitted packet of either lane can be written after a readiness
  loss or a close (`HeldPacketOutlivesLoss`, `HeldPacketOutlivesClose`), and two writes can start
  with no flow frame between them (`FrameBeforeWriteCountsTwice`). The property holds exactly of
  admissions, and of writes up to the one packet admitted and not yet written
  (`PacketWriteAfterLoss`, `PacketWritesFollowFrames`, `OneOutlivesAdmission`).
- **Fast-flap block.** Operations read the clock before they get the lock. A disconnect applied
  late with an earlier reading shortens the block (`BlockCanEndEarly`); `BlockLastsIff` says
  exactly which readings keep it.
- **Ring crash safety.** A returned key survives any failed saves and the next reload
  (`ReturnedKeySurvivesReload`). Over repeated reloads it stays on disk if and only if fewer
  than `RATCHET_COUNT` rotations reported as failed have been picked up or wait on disk
  (`ReturnedKeyOnDiskIff`), and that bound is reached (`ReturnedKeyCanBeLost`).
- **Padding.** `unpad` does not check block alignment; re-padding gives the input back exactly
  for whole blocks (`PadInvertsUnpadIff`). The token code checks alignment first.
- **Empty app data.** An announce with empty app data unpacks to one without
  (`UnpackInvertsPack`); its signature still verifies, since both sign the same bytes.
- **Ratchet flag.** The flag that says whether an announce carries a ratchet is not signed. A
  signature binds every field under the same flag (`SignatureBindsFields`); under the other one
  the ratchet reads as app data (`FlagIsNotSigned`).
- **Rotation at time zero.** A rotation at reading zero leaves an unknown age, so the next call
  rotates again (`EnsureRotatesIff`).
- **Legacy codec.** Counts and lengths are narrowed to 32 bits, so the round trip holds if and
  only if both fit (`RoundTripIff`).
- **Announce time.** The time on the wire is the clock reading taken while planning; it exceeds
  the clock at emission exactly if the clock is then below that reading
  (`EmittedTimeFollowsClock`), which a rollback can cause (`EmittedTimeCanExceedClock`).
- **Cache replay.** A tag replays for 30 seconds, unless a request with a later time came
  between, which expires the entry (`EntryLastsIff`).
- **Machine words.** The legacy parser adds a length from the file to a position. With 64-bit
  words this never overflows (`WideWordsSuffice`); with 32-bit words a malformed file can make
  it panic where it should report truncation (`NarrowWordsCanPanic`, `PanicIsTruncation`).

## Model

| member | source | states |
|---|---|---|
| `UsbDelivery.PacketsAtMostOnceInOrder` | crates/rns-interface/src/android_usb_lifecycle.rs:1747-1865 | across any number of generations, failures, late completions and stops, the i-th complete transfer is the i-th packet taken; a packet taken and not transferred is the pending one; transferred plus pending application packets are exactly the first packets sent |
| `UsbDelivery.ApplicationClosedLosesNothing` | crates/rns-interface/src/android_usb_lifecycle.rs:1820-1847 | a pump that reports the channel closed has seen every packet ever sent transferred, in order |
| `UsbProgress.EverythingCanBeDelivered` | crates/rns-interface/src/android_usb_lifecycle.rs:1747-1865 | from every reachable state between generations some run transfers every packet sent so far, in order |
| `UsbProgress.BackgroundOutcome` | crates/rns-interface/src/android_usb_lifecycle.rs:1215-1220 | a background packet leaves its slot exactly on a timely write; a late one is transferred and stays, a broken one changes nothing |
| `UsbProgress.PumpComesRound` | crates/rns-interface/src/android_usb_lifecycle.rs:1747-1865 | a waiting pump can look again, which retires exactly a transferred packet and loses none |
| `UsbProgress.ClosedApplicationEndsPump` | crates/rns-interface/src/android_usb_lifecycle.rs:1747-1865 | once the channel is closed and drained with nothing pending the pump can end, closing its gate |
| `UsbProgress.BeaconCanBeQueued` | crates/rns-interface/src/android_usb_lifecycle.rs:1747-1865 | a station identification can be queued whenever the gate admits and nothing is pending, and takes no packet of the application |
| `UsbProgress.RejectionKeepsPacket` | crates/rns-interface/src/android_usb_lifecycle.rs:1747-1865 | from every reachable state with a packet offered or queued the pump can end as rejected, and the packet stays pending |
| `UsbProgress.RejectionHasPacket` | crates/rns-interface/src/android_usb_lifecycle.rs:1747-1865 | in every run a pump reported as rejected leaves a packet pending |
| `UsbProgress.ControlCanBeWritten` | crates/rns-interface/src/android_usb_lifecycle.rs:1331-1393 | a control request of an idle session is written next whatever the gate says, and leaves the gate as it is |
| `UsbProgress.PoppedPacketIsReachable` | crates/rns-interface/src/android_usb_lifecycle.rs:689-704 | a run reaches a packet popped by the writer while a detach is still accepted |
| `UsbDelivery.RunKeepsDelivery` | crates/rns-interface/src/android_usb.rs:1980-2033 | the delivery invariant linking channel, ledger, pump, queue, writer and acknowledgement holds in every reachable state of any number of generations |
| `UsbDelivery.BackgroundTransfers` | crates/rns-interface/src/android_usb_lifecycle.rs:1202-1219 | a background packet is transferred once per late completion plus once if retired; without late completions at most once and in order |
| `UsbDelivery.BackgroundCanRepeat` | crates/rns-interface/src/android_usb_lifecycle.rs:1215-1219 | for every number n there is a run in which one background packet is transferred n times |
| `UsbSessionProofs.WriterLanguage` | crates/rns-interface/src/android_usb_lifecycle.rs:1163-1239 | in every run, requests reaching the backend are timely successes and no detach, up to a last one; only a failed Init that awaits a terminal detach may be followed, by exactly that detach |
| `UsbSessionProofs.DetachBarrier` | crates/rns-interface/src/android_usb_lifecycle.rs:650-704 | after an accepted detach only the request popped before it, if any, and then the detach reach the backend; nothing follows the detach |
| `UsbSessionProofs.PoppedRequestOutlivesDetach` | crates/rns-interface/src/android_usb_lifecycle.rs:650-704 | in every reachable state whose writer holds a writable request, an accepted detach can be followed by that request's write |
| `UsbSessionProofs.QueueIsBounded` | crates/rns-interface/src/android_usb_lifecycle.rs:605-648 | in every run free slots plus slots of queued and popped requests equal the capacity |
| `UsbStops.EndedWriterTakesNothing` | crates/rns-interface/src/android_usb_lifecycle.rs:747-774 | in every run, once the writer has ended or a stop was requested the queue holds nothing, admits nothing and accepts no detach |
| `UsbStops.StopBarrier` | crates/rns-interface/src/android_usb_lifecycle.rs:689-759 | after a stop request the backend sees at most one more request of the session, the one the writer then held |
| `UsbStops.DetachCanBeWritten` | crates/rns-interface/src/android_usb_lifecycle.rs:1163-1239 | from every reachable state with a waiting writer and an open queue a detach can be written, and the writer ends with it |
| `UsbStops.GateDecidesHeldRequest` | crates/rns-interface/src/android_usb_lifecycle.rs:1184-1214 | a held ordinary request that the gate refuses, or that follows a failed Init, ends the writer unwritten and fails its caller; any other is admitted |
| `UsbStops.FailedWriteEndsUnlessInit` | crates/rns-interface/src/android_usb_lifecycle.rs:1205-1239 | a failed or late write ends the writer, closes its queue and fails its caller, except an Init that awaits a terminal detach, after which the writer waits for that detach |
| `UsbStops.TimelyWriteContinues` | crates/rns-interface/src/android_usb_lifecycle.rs:1163-1239 | any other write that is in time leaves the writer waiting and acknowledges its caller |
| `UsbStops.ExitIsTrue` | crates/rns-interface/src/android_usb_lifecycle.rs:1163-1239 | in every run a writer that ended Stopped was asked to stop, and one that ended Detached wrote a detach last and in time |
| `UsbStops.WriterStopsOnRequest` | crates/rns-interface/src/android_usb_lifecycle.rs:1177-1183 | a writer that waits, or holds a request not yet admitted, can stop when asked without writing anything |
| `UsbStops.AdmittedRequestOutlivesStop` | crates/rns-interface/src/android_usb_lifecycle.rs:1177-1214 | an ordinary request already admitted can still be written after the stop request |
| `UsbStops.SessionCanEnd` | crates/rns-interface/src/android_usb_lifecycle.rs:1747-1865 | from every reachable state the session can end with the channel and the retry slot as they are |
| `UsbPermits.PacketWritesArePermitted` | crates/rns-interface/src/android_usb_lifecycle.rs:705-736 | with flow control, every packet write has its own admission, in the order of the writes; permits spent equal packet writes of both lanes plus packets held admitted or dropped unwritten, and never exceed one plus the positive flow frames |
| `UsbPermits.PacketWriteIsAdmitted` | crates/rns-interface/src/android_usb_lifecycle.rs:1200-1214 | each physical packet write of either lane was admitted before it started, when no close had happened and the last frame had reported ready |
| `UsbPermits.PacketWritesFollowFrames` | crates/rns-interface/src/android_usb_lifecycle.rs:473-560 | any two packet writes have a positive flow frame between their admissions, and the second is admitted only after the first started |
| `UsbPermits.PacketWriteAfterLoss` | crates/rns-interface/src/android_usb_lifecycle.rs:473-502 | a packet write after a readiness loss follows a positive flow frame at or after the loss, or was admitted before it; one after a close was admitted before |
| `UsbPermits.OneOutlivesAdmission` | crates/rns-interface/src/android_usb_lifecycle.rs:1163-1239 | only the last packet to start can have been written after a loss or close it was admitted before |
| `UsbPermits.AdmissionsEndWithPump` | crates/rns-interface/src/android_usb_lifecycle.rs:1736-1758 | every admission a session makes is among the gate's events up to the end of its pump |
| `UsbPermits.HoldsWritableIsReachable` | crates/rns-interface/src/android_usb_lifecycle.rs:705-736 | a run holds an admitted background packet with flow control and no flow frame seen |
| `UsbProgress.AdmittedPacketIsReachable` | crates/rns-interface/src/android_usb_lifecycle.rs:1200-1211 | a run holds an admitted ordinary packet with flow control and no flow frame seen |
| `UsbPermits.HeldPacketOutlivesLoss` | crates/rns-interface/src/android_usb_lifecycle.rs:1200-1211 | in every reachable state holding an admitted packet of either lane behind an open, ready gate, it can be written after a readiness loss with no frame since |
| `UsbPermits.HeldPacketOutlivesClose` | crates/rns-interface/src/android_usb_lifecycle.rs:1200-1211 | likewise after the gate was closed |
| `UsbPermits.FrameBeforeWriteCountsTwice` | crates/rns-interface/src/android_usb_lifecycle.rs:1200-1211 | a positive frame seen while an admitted packet is held lets two packet writes start with no frame between them |
| `UsbSessionProofs.ReadinessTimeoutIsEarned` | crates/rns-interface/src/android_usb_lifecycle.rs:1795-1817 | a pump reports ReadinessTimedOut only when the current not-ready episode has lasted the full bound |
| `UsbSessionProofs.ReadinessTimeoutIff` | crates/rns-interface/src/android_usb_lifecycle.rs:1795-1817 | a checked pump may report the timeout exactly if its gate was never closed, the last frame, if any, reported not ready, and the bound has passed since the reports turned |
| `UsbSessionProofs.RunKeeps` | crates/rns-interface/src/android_usb_lifecycle.rs:1095-1239 | wire, detach, slot and permit invariants hold in every reachable state |
| `UsbTxGate.UsbTxGate.constructor` | crates/rns-interface/src/android_usb_lifecycle.rs:458-471 | a new gate is open, not ready, with one permit and a running deadline |
| `UsbTxGate.UsbTxGate.Observe` | crates/rns-interface/src/android_usb_lifecycle.rs:473-502 | the new gate state is `Observed` of the old one; the published online flag stays equal to readiness |
| `UsbTxGate.UsbTxGate.TakePermit` | crates/rns-interface/src/android_usb_lifecycle.rs:534-546 | grants exactly when open, ready and permitted, and then spends the permit under flow control |
| `UsbTxGate.UsbTxGate.Close` | crates/rns-interface/src/android_usb_lifecycle.rs:548-560 | closes, withdraws readiness and permit, and goes offline |
| `UsbTxGate.PermitIff` | crates/rns-interface/src/android_usb_lifecycle.rs:473-546 | the permit is present exactly when every event that withdrew it was followed by a positive flow frame |
| `UsbTxGate.ClosedStays` | crates/rns-interface/src/android_usb_lifecycle.rs:548-560 | a gate is closed exactly when some close happened before, and is then neither ready nor permitted |
| `UsbTxGate.ReadyIff` | crates/rns-interface/src/android_usb_lifecycle.rs:473-502 | the gate is ready exactly if it was never closed and the last frame reported ready; not ready, its deadline is the bound after the reports last turned |
| `UsbTxGate.ExpiredIff` | crates/rns-interface/src/android_usb_lifecycle.rs:521-532 | readiness has expired exactly if the gate was never closed, its last frame, if any, reported not ready, and the bound has passed since the reports turned |
| `UsbTxGate.AdmissionsAreSeparated` | crates/rns-interface/src/android_usb_lifecycle.rs:534-546 | two admissions have a positive flow frame between them |
| `UsbTxGate.LossVoidsOldGrant` | crates/rns-interface/src/android_usb_lifecycle.rs:473-502 | an admission after a readiness loss needs a positive flow frame at or after the loss |
| `UsbTxGate.AdmissionIsOpenAndReady` | crates/rns-interface/src/android_usb_lifecycle.rs:534-546 | a packet is admitted exactly by a question to a gate never closed, whose last frame reported ready and, with flow control, whose permit is present |
| `UsbTxGate.PermitsAreConserved` | crates/rns-interface/src/android_usb_lifecycle.rs:473-546 | admissions plus an unspent permit never exceed one plus the positive flow frames |
| `UsbTxGate.DeadlineIsEpisodeStart` | crates/rns-interface/src/android_usb_lifecycle.rs:458-502 | in an open, not-ready gate the deadline is the start of the current not-ready episode plus 10 s, whatever frames came |
| `UsbWriteQueue.UsbWriteQueue.constructor` | crates/rns-interface/src/android_usb_lifecycle.rs:589-603 | an empty open queue with all slots free |
| `UsbWriteQueue.UsbWriteQueue.Enqueue` | crates/rns-interface/src/android_usb_lifecycle.rs:605-648 | admits exactly when open with a free slot, appends the request holding that slot, and otherwise changes nothing |
| `UsbWriteQueue.UsbWriteQueue.BeginDetach` | crates/rns-interface/src/android_usb_lifecycle.rs:650-687 | accepted exactly while neither cancelled nor closed; then the queue is closed and holds only the detach |
| `UsbWriteQueue.UsbWriteQueue.Receive` | crates/rns-interface/src/android_usb_lifecycle.rs:689-745 | pops the front unless cancelled or empty, and says when there is nothing more to come |
| `UsbWriteQueue.UsbWriteQueue.CancelAndWake` | crates/rns-interface/src/android_usb_lifecycle.rs:747-759 | closes, cancels and empties the queue |
| `UsbWriteQueue.UsbWriteQueue.MarkWorkerClosed` | crates/rns-interface/src/android_usb_lifecycle.rs:761-774 | closes the queue for good and empties it |
| `UsbWriteQueue.UsbWriteQueue.Clear` | crates/rns-interface/src/android_usb_lifecycle.rs:650-687 | dropping the queued requests gives back exactly the slots they held |
| `UsbWriteQueue.SlotsConserved` | crates/rns-interface/src/android_usb_lifecycle.rs:605-774 | every queue operation keeps free plus held slots |
| `UsbTransfer.TransferTimeout` | crates/rns-interface/src/android_usb_lifecycle.rs:1077-1093 | refused exactly when less than the minimum is left; a granted timeout never outlives the deadline |
| `UsbTransfer.WriteRequest` | crates/rns-interface/src/android_usb_lifecycle.rs:1095-1161 | for every backend and clock, accepted bytes are a prefix of the request; at most one call per byte; the packet is published exactly once, if and only if all bytes were accepted, even when the result is DeadlineElapsed; every failure names its cause |
| `UsbStartup.StartupIsFresh` | crates/rns-interface/src/android_usb_lifecycle.rs:1479-1534 | in every interleaving and for both startups, after Ok and still while the reader's tail is drained after a stop, every chunk to be consumed comes from a read that began after the Init write was acknowledged |
| `UsbStartup.RunKeeps` | crates/rns-interface/src/android_usb_lifecycle.rs:1251-1323 | the barrier and freshness invariants hold in every reachable state |
| `UsbStartup.EventsAreBounded` | crates/rns-interface/src/android_usb_lifecycle.rs:1241-1243 | the event channel never exceeds its capacity, which is at least one |
| `UsbStartup.EventsAreFifo` | crates/rns-interface/src/android_usb_lifecycle.rs:1241-1323 | until the driver closes it the channel delivers what the actions of the run sent, once and in order |
| `UsbStartup.StartupReceivesNoExit` | crates/rns-interface/src/android_usb_lifecycle.rs:1479-1534 | a startup under way has received no worker exit |
| `UsbStartup.FreshnessOfActions` | crates/rns-interface/src/android_usb_lifecycle.rs:1479-1534 | freshness said of the actions alone: after Ok, what was sent and not received comes from reads begun after the acknowledgement of Init |
| `UsbStartup.FlagsAreTrue` | crates/rns-interface/src/android_usb_lifecycle.rs:1251-1287 | a stopped driver has called off the workers and the barrier, and the paused flag is up exactly while the reader is inside the barrier |
| `UsbStartup.NoReadAfterStop` | crates/rns-interface/src/android_usb_lifecycle.rs:1289-1323 | no read begins after a stop |
| `UsbStartup.EverythingCanStop` | crates/rns-interface/src/android_usb_lifecycle.rs:1277-1323 | from every reachable state the driver can stop and then the reader can end |
| `UsbStartup.StartupCanSucceed` | crates/rns-interface/src/android_usb_lifecycle.rs:1629-1675 | for every event capacity either startup can succeed and deliver, although a chunk read before Init was queued |
| `UsbLeases.UsbLeaseTable.constructor` | crates/rns-interface/src/android_usb_lifecycle.rs:172-183 | an empty table |
| `UsbLeases.UsbLeaseTable.ReserveOpening` | crates/rns-interface/src/android_usb_lifecycle.rs:185-197 | succeeds exactly for a device without any lease |
| `UsbLeases.UsbLeaseTable.ActivateLease` | crates/rns-interface/src/android_usb_lifecycle.rs:199-211 | succeeds exactly for an opening lease |
| `UsbLeases.UsbLeaseTable.ReleaseOpeningLease` | crates/rns-interface/src/android_usb_lifecycle.rs:213-227 | removes exactly an opening lease |
| `UsbLeases.UsbLeaseTable.ReleaseActiveLease` | crates/rns-interface/src/android_usb_lifecycle.rs:229-241 | removes exactly an active lease |
| `UsbLeases.UsbLeaseTable.QuarantineDevice` | crates/rns-interface/src/android_usb_lifecycle.rs:243-258 | quarantines from any state, keeping sessions already retained |
| `UsbLeases.LeaseMatchesHistory` | crates/rns-interface/src/android_usb_lifecycle.rs:184-258 | after any history a device is quarantined exactly if something was ever quarantined for it, with every session in order; otherwise leased exactly if one reservation is outstanding |
| `UsbLeases.QuarantineIsPermanent` | crates/rns-interface/src/android_usb_lifecycle.rs:184-258 | whatever follows, a quarantined device stays so, keeps its sessions first and refuses every other operation |
| `UsbOwnership.OneDisposition` | crates/rns-interface/src/android_usb_lifecycle.rs:2065-2225 | every owner that is gone was closed with proof or retained, never both; release and close only after both workers ended; Released reported exactly for a proven close |
| `UsbOwnership.DispositionMatchesRun` | crates/rns-interface/src/android_usb_lifecycle.rs:2147-2225 | an owner is gone exactly if its reader was joined or it was cancelled; closed and reported released exactly if both joins found their worker ended and the close was proven; an unproven close is followed by the retention, any other end is the retention alone |
| `UsbOwnership.LeaseMatchesRun` | crates/rns-interface/src/android_usb_lifecycle.rs:184-258 | a device's lease is opening exactly while an opener is at it, active exactly while an owner on it lives, quarantined exactly if an opener vanished or an owner was retained |
| `UsbOwnership.DeviceCanBeReopened` | crates/rns-interface/src/android_usb_lifecycle.rs:2172-2225 | from every reachable state with an owner in use, it can be closed with proof and its device opened again by another |
| `UsbOwnership.LivingOwnerCanBeCancelled` | crates/rns-interface/src/android_usb_lifecycle.rs:2065-2084 | cancelling an owner anywhere retains it and quarantines its device |
| `UsbOwnership.FailedOpeningFreesDevice` | crates/rns-interface/src/android_usb.rs:1025-1133 | an opening that fails gives its device back and touches no owner |
| `UsbOwnership.OneSessionPerDevice` | crates/rns-interface/src/android_usb_lifecycle.rs:2109-2225 | two owners of one device never both lack a proven close, and a retained owner's device stays quarantined with it |
| `UsbOwnership.RunKeeps` | crates/rns-interface/src/android_usb.rs:1025-1133 | the owner and exclusiveness invariants hold in every reachable state of reservation, opening, shutdown and cancellation |
| `UsbSelector.ResolvesIff` | crates/rns-interface/src/android_usb_lifecycle.rs:80-152 | resolution yields a device exactly when it is the only one matching the selector and is permitted |
| `UsbSelector.UnresolvedIff` | crates/rns-interface/src/android_usb_lifecycle.rs:80-152 | not found exactly if no device is described or might be meant; ambiguous exactly if several are, with their number; permission required exactly if the single one lacks it |
| `UsbSelector.NamedDeviceLacksPermission` | crates/rns-interface/src/android_usb_lifecycle.rs:80-152 | the device named is the one described, or else the one that might be meant |
| `UsbSelector.ResolveIgnoresOrder` | crates/rns-interface/src/android_usb_lifecycle.rs:80-152 | success or error, the outcome is the same for every enumeration order |
| `UsbSelector.LearnedSelectorIsStable` | crates/rns-interface/src/android_usb_lifecycle.rs:80-152 | a selector learned from a device with a serial finds it in any later list where it is unique and permitted, whatever its path |
| `Pkcs7.Unpad` | crates/rns-crypto/src/pkcs7.rs:39-58 | the byte-by-byte check agrees with the definition: accepted exactly for a tail of p bytes p with p from 1 to 16 |
| `Pkcs7.UnpadInvertsPad` | crates/rns-crypto/src/pkcs7.rs:27-58 | unpadding inverts padding |
| `Pkcs7.PadInvertsUnpadIff` | crates/rns-crypto/src/pkcs7.rs:27-58 | padding inverts unpadding exactly on block-aligned accepted inputs |
| `Token.RoundTrip` | crates/rns-crypto/src/token.rs:50-127 | for every plaintext, both key sizes and every IV a token decrypts to its plaintext and has length 48 + 16(n/16 + 1) |
| `Token.DecryptsIff` | crates/rns-crypto/src/token.rs:93-127 | a token decrypts to a plaintext exactly if it is its encryption under the IV it carries; a key of the right length rejects every other token as AuthenticationFailed, any other key as InvalidKeyLength |
| `RatchetRing.RatchetRing.constructor` | crates/rns-identity/src/ratchet.rs:131-138 | an empty valid ring with the default policy |
| `RatchetRing.RatchetRing.Decoded` | crates/rns-identity/src/ratchet.rs:408-443 | a decoded ring holds the stored keys, an unknown age and the default policy |
| `RatchetRing.RatchetRing.Duplicate` | crates/rns-identity/src/ratchet.rs:228-237 | a separate ring with equal keys and policy |
| `RatchetRing.RatchetRing.EvictTo` | crates/rns-identity/src/ratchet.rs:156-162 | keeps the newest keys up to a limit and wipes every slot it frees |
| `RatchetRing.RatchetRing.Clean` | crates/rns-identity/src/ratchet.rs:289-296 | keeps the newest keys up to a limit and wipes every slot it frees |
| `RatchetRing.RatchetRing.InsertFront` | crates/rns-identity/src/ratchet.rs:163-163 | puts a key before the others inside the same buffer |
| `RatchetRing.RatchetRing.RotateAt` | crates/rns-identity/src/ratchet.rs:152-171 | the new key followed by the newest retained - 1 others; an unusable time becomes an unknown age |
| `RatchetRing.RatchetRing.SetRetained` | crates/rns-identity/src/ratchet.rs:261-269 | accepts exactly 1 to RATCHET_COUNT and keeps the newest that many |
| `RatchetRing.RatchetRing.NeedsRotation` | crates/rns-identity/src/ratchet.rs:184-192 | due exactly at a usable time with unknown age or a full interval past the last rotation |
| `RatchetRing.RingIsNewestPrefix` | crates/rns-identity/src/ratchet.rs:152-171 | in every history the ring is a prefix of the generated keys, newest first, of length at most retained, itself at most RATCHET_COUNT |
| `RatchetRing.RotateAllKeeps` | crates/rns-identity/src/ratchet.rs:152-171 | any number of rotations keeps exactly the newest retained keys |
| `RatchetRing.KeyHeldIff` | crates/rns-identity/src/ratchet.rs:261-296 | after any rotations and changes of the retained count a key is held exactly if at every point its place was below the count of that point, and then at that place |
| `RatchetRing.SurvivesRotationsIff` | crates/rns-identity/src/ratchet.rs:152-171 | with the count left alone: a key at place d survives k rotations exactly if d + k is below it |
| `Identity.Decrypt` | crates/rns-identity/src/identity.rs:365-421 | the loop over ratchets returns what the first authenticating one gives, with its identifier, then the identity key unless enforced |
| `Identity.TargetOpens` | crates/rns-identity/src/identity.rs:321-346 | the private key of the target opens every ciphertext made for its public key |
| `Identity.EncryptSucceeds` | crates/rns-identity/src/identity.rs:321-346 | encryption always succeeds, with a ciphertext of 80 + 16(n/16 + 1) bytes |
| `Identity.OwnKeyIsLastResort` | crates/rns-identity/src/identity.rs:396-420 | a ciphertext for the identity's own key that no ratchet opens decrypts to its plaintext, without an identifier, exactly if ratchets are not enforced and the key is there |
| `Identity.FirstRatchetDecides` | crates/rns-identity/src/identity.rs:380-395 | the first ratchet that opens a ciphertext decides, with its identifier, with or without enforcement |
| `Identity.NothingElseDecrypts` | crates/rns-identity/src/identity.rs:365-421 | what no held key opens is not decrypted |
| `Identity.RatchetLifetime` | crates/rns-identity/src/identity.rs:365-421 | with ratchets enforced, a ciphertext to a ratchet at any place of the ring decrypts to its plaintext after any rotations and changes of the retained count exactly while the ratchet survives them |
| `Identity.PlainSuiteSeparatesKeys` | crates/rns-identity/src/identity.rs:365-421 | a lawful suite exists in which only the target key opens a ciphertext, so the hypotheses can be met for any distinct keys |
| `Persistence.FileSystem.VerifyBytes` | crates/rns-identity/src/persistence.rs:86-105 | Same only if the file equals the data, Different only if it does not, for any read sizes |
| `Persistence.FileSystem.ReadSecretFile` | crates/rns-identity/src/persistence.rs:111-130 | returns the whole file and only if it is within the limit |
| `Persistence.FileSystem.AtomicWrite` | crates/rns-identity/src/persistence.rs:213-259 | success puts the data at the path and changes nothing else; failure leaves the old content or the data there, touches only the temporary file besides, and happens only if an operation failed or stored other bytes, or the temporary name was taken |
| `PersistentRing.SaveVerified` | crates/rns-identity/src/ratchet.rs:321-346 | success means the file loads as this ring for this identity; failure leaves what it loaded as before, or this ring, and has a cause: no signature, a fault, or a taken temporary name |
| `PersistentRing.AcceptedIff` | crates/rns-identity/src/ratchet.rs:385-406 | a file is accepted exactly if it decodes within its limits and its signature verifies for this identity, over all keys or, in a historical file, the newest public key |
| `PersistentRing.ForeignRingIsRefused` | crates/rns-identity/src/ratchet.rs:385-406 | with unforgeable signatures a ring saved by another signer is refused unless this identity signs the same |
| `PersistentRing.PlainCodecIsLawful` | crates/rns-identity/src/ratchet.rs:28-81 | a codec with the stated laws and unforgeable signatures exists |
| `PersistentRing.PersistentRatchetRing.Open` | crates/rns-identity/src/ratchet.rs:475-485 | loads an accepted file unchanged, creates an empty ring where there is none, refuses any other file |
| `PersistentRing.PersistentRatchetRing.RotateAt` | crates/rns-identity/src/ratchet.rs:545-555 | a returned key heads both the live and the stored ring; an error leaves the live ring unchanged and the file old or new, and has a cause |
| `PersistentRing.PersistentRatchetRing.EnsureCurrentAt` | crates/rns-identity/src/ratchet.rs:524-537 | rotates exactly when empty or due; otherwise returns the newest live key and changes nothing |
| `RingCrashSafety.OpenStep` | crates/rns-identity/src/ratchet.rs:475-485 | each opening is one event of the history machine |
| `RingCrashSafety.RotateStep` | crates/rns-identity/src/ratchet.rs:545-555 | each rotation, successful or not, is one event of the history machine |
| `RingCrashSafety.EnsureCurrentStep` | crates/rns-identity/src/ratchet.rs:524-537 | each call is one event, and the key it returns is the one the machine records as returned |
| `RingCrashSafety.ReturnedKeyOnDiskIff` | crates/rns-identity/src/ratchet.rs:208-229 | in every history of saves, failures, crashes and reloads, from any accepted file or none, the last returned key is on disk exactly if fewer than RATCHET_COUNT failed rotations were adopted or wait |
| `RingCrashSafety.ReturnedKeySurvivesReload` | crates/rns-identity/src/ratchet.rs:524-555 | after any failures following a returned key the next reload has that key |
| `RingCrashSafety.ReturnedKeyCanBeLost` | crates/rns-identity/src/ratchet.rs:208-229 | there is a history in which the last returned key is no longer on disk |
| `RotationSchedule.EnsureStep` | crates/rns-identity/src/ratchet.rs:524-537 | each call for the current key is one event of the schedule, or fails and changes nothing |
| `RotationSchedule.RotateStep` | crates/rns-identity/src/ratchet.rs:545-555 | each rotation asked for is one event of the schedule, or fails and changes nothing |
| `RotationSchedule.EnsureRotatesIff` | crates/rns-identity/src/ratchet.rs:184-192 | in every history a ring with keys rotates at a usable reading exactly if it has not rotated since it was opened, or did so at time zero, or a full interval has passed; otherwise it returns its newest key |
| `RotationSchedule.EmptyRingRotates` | crates/rns-identity/src/ratchet.rs:524-537 | an empty ring rotates first at every usable reading |
| `RotationSchedule.ReopenedRingRotates` | crates/rns-identity/src/ratchet.rs:184-192 | a ring opened again with keys rotates at the next usable reading, whenever it last did |
| `WireTime.WireOrder` | crates/rns-identity/src/announce.rs:80-91 | on the 40-bit range the five wire bytes order lexicographically exactly as the times, and determine them |
| `AnnounceState.AnchorStartsInterval` | crates/rns-identity/src/announce_state.rs:61-80 | anchoring an unknown age or recording a rotation makes the next rotation due exactly one interval later, and a known age is not moved |
| `AnnounceState.PlannedIff` | crates/rns-identity/src/announce_state.rs:82-100 | a reading is planned exactly if it fits 40 bits and is later than the last; the candidate records it and keeps all else |
| `AnnounceState.SaveVerified` | crates/rns-identity/src/announce_state.rs:114-158 | only the bound identity saves; success means the state loads back; failure leaves old or new |
| `AnnounceState.PlainCodecIsLawful` | crates/rns-identity/src/announce_state.rs:124-150 | a codec with the stated laws and unforgeable signatures exists |
| `AnnounceState.LoadVerified` | crates/rns-identity/src/announce_state.rs:161-228 | what loads is bound to exactly this identity and destination and within 40 bits |
| `AnnounceState.AcceptedIff` | crates/rns-identity/src/announce_state.rs:161-228 | a stored state is accepted exactly if it decodes within the limit to this version, bound to this identity and destination and in range, with a signature that verifies for this identity |
| `AnnounceState.AcceptedIsSigned` | crates/rns-identity/src/announce_state.rs:161-228 | with unforgeable signatures what loads carries the signature this identity makes for it |
| `AnnounceState.AnnounceStep` | crates/rns-identity/src/announce_state.rs:82-112 | plan, save and commit is one event of the history machine, and the announce may go out exactly when saved |
| `AnnounceState.ReloadStep` | crates/rns-identity/src/announce_state.rs:161-228 | loading is the reload event of the history machine, or fails for want of an accepted file or by an operation of the file system |
| `AnnounceState.RunKeeps` | crates/rns-identity/src/announce_state.rs:82-112 | in every history everything saved or emitted is covered by both the live and the stored state, in increasing order, and comes from an announce planned and saved in that history |
| `AnnounceState.EmittedTimesIncrease` | crates/rns-identity/src/announce_state.rs:82-112 | with any rollback, failed saves, crashes and reloads emitted times strictly increase, as times and as wire bytes |
| `AnnounceState.EmittedTimeFollowsClock` | crates/rns-identity/src/announce_state.rs:82-112 | from any accepted state or none, every emitted time is within 40 bits, later than the record before, on record live and on disk, and exceeds the clock at its emission exactly if that clock is below the reading it was planned at |
| `AnnounceState.EmittedTimeCanExceedClock` | crates/rns-identity/src/announce_state.rs:82-112 | for every pair of readings with the clock running back between planning and emission there is a run that emits the earlier, larger one |
| `AnnounceState.LaterReadingCanBeEmitted` | crates/rns-identity/src/announce_state.rs:82-112 | from every reachable live state any later reading within 40 bits can be planned, saved and emitted |
| `AnnounceState.CrashAndRestart` | crates/rns-identity/src/announce_state.rs:161-228 | after a crash anywhere the process comes back with the state on disk, or a new one, and nothing to release |
| `AnnounceState.RotationIsRecorded` | crates/rns-identity/src/announce_state.rs:61-80 | a saved rotation is on record live and on disk and touches no announce time |
| `Announce.Pack` | crates/rns-identity/src/announce.rs:127-151 | appending field by field gives the wire layout |
| `Announce.Unpack` | crates/rns-identity/src/announce.rs:158-210 | parsing at a moving position agrees with the fixed layout and refuses exactly short inputs |
| `Announce.PackInvertsUnpack` | crates/rns-identity/src/announce.rs:127-210 | packing inverts unpacking on every accepted input under its flag |
| `Announce.UnpackInvertsPack` | crates/rns-identity/src/announce.rs:127-210 | unpacking inverts packing exactly unless app data is the empty string, which becomes none |
| `Announce.ValidateIff` | crates/rns-identity/src/announce.rs:213-310 | an announce is valid exactly if its key is, its signature verifies, its destination is the hash of its name and key, and no other key is known; the first failing condition is the error |
| `Announce.SignatureBindsFields` | crates/rns-identity/src/announce.rs:238-266 | a valid announce carrying a signature that verifies only for another announce has its destination and all its fields, if read under the same ratchet flag |
| `Announce.FlagIsNotSigned` | crates/rns-identity/src/announce.rs:238-266 | an announce with a ratchet is as valid read without one, the ratchet then counting as app data |
| `Announce.BindingSuiteExists` | crates/rns-identity/src/announce.rs:238-266 | a lawful suite exists in which a signature verifies for one message only |
| `Destination.BuiltAnnounceValidates` | crates/rns-identity/src/destination.rs:1001-1043 | every announce built with the matching identity unpacks under its flag, passes signature and binding, and carries its wire time, empty app data included |
| `Destination.BuiltAnnounceIsBound` | crates/rns-identity/src/destination.rs:1001-1043 | whatever is valid under the signature of a built announce, read under its flag, is for the same destination with the same key, name, wire time, ratchet and app data |
| `Destination.Destination.CreateAnnounceAt` | crates/rns-identity/src/destination.rs:976-1056 | the first failing condition decides the error; else a cached tag gets its body back and any other request is built and remembered |
| `Destination.RefusalIff` | crates/rns-identity/src/destination.rs:976-990 | each refusal exactly by its own condition, the earlier ones holding |
| `Destination.Destination.CachedPathResponse` | crates/rns-identity/src/destination.rs:1101-1115 | finds exactly what is cached within the window and builds nothing |
| `Destination.EntryLastsIff` | crates/rns-identity/src/destination.rs:992-999 | an entry stays unchanged through any operations exactly if none of them came later than the window allows, whatever the order of their times |
| `Destination.TagReplays` | crates/rns-identity/src/destination.rs:976-1115 | a tag gets identical bytes and flag through both paths exactly up to 30 s, whatever requests within that time lie between; after that nothing is found and a request is built anew |
| `MultiIfDedup.MultiIfDedup.IsDuplicate` | crates/rns-interface/src/auto.rs:297-325 | true exactly if the hash is among the last 48 newly accepted packets and no older than the TTL; only non-duplicates are logged |
| `MultiIfDedup.MultiIfDedup.Prune` | crates/rns-interface/src/auto.rs:301-307 | drops expired entries from the front, and nothing expired is left there |
| `MultiIfDedup.RemembersExactly` | crates/rns-interface/src/auto.rs:297-325 | the pruned deque holds a hash exactly if the log remembers it: front-only pruning and eviction lose nothing else |
| `FastFlap.FastFlapTable.Admit` | crates/rns-interface/src/backbone.rs:216-245 | rejects exactly an IP over grace within the block time |
| `FastFlap.FastFlapTable.RecordDisconnect` | crates/rns-interface/src/backbone.rs:247-281 | counts a short disconnect, or creates an entry if there is room after pruning |
| `FastFlap.FastFlapTable.BlockedIps` | crates/rns-interface/src/backbone.rs:283-305 | the number of IPs that would be rejected now; no present or future decision changes |
| `FastFlap.FastFlapConnection.RecordDisconnect` | crates/rns-interface/src/backbone.rs:320-339 | the first record counts, any later one changes nothing |
| `FastFlap.FastFlapConnection.Disconnect` | crates/rns-interface/src/backbone.rs:320-339 | an explicit disconnect followed by the drop counts once |
| `FastFlap.CountsMatchHistory` | crates/rns-interface/src/backbone.rs:216-281 | in every run, also with clock readings applied out of order, the table is within capacity and each count is the number of short disconnects recorded since the entry was created, saturating, its time the last recorded |
| `FastFlap.CountedOncePerConnection` | crates/rns-interface/src/backbone.rs:320-339 | no connection is counted twice, and each for the IP it was admitted with |
| `FastFlap.FlapsAreShort` | crates/rns-interface/src/backbone.rs:247-255 | every flap is the first leave of its connection, read less than the threshold after its admission |
| `FastFlap.LeaveCountsIff` | crates/rns-interface/src/backbone.rs:247-281 | a repeated leave, a long one, or one without an enabled policy changes nothing; a short first one of a tracked IP, or with room after expiry, is recorded once; with no room it leaves no trace |
| `FastFlap.AdmissionMatchesHistory` | crates/rns-interface/src/backbone.rs:216-245 | a connection is refused exactly if the policy is on and its IP has more flaps than the grace since its entry was made, the last within the block time |
| `FastFlap.BlockLastsIff` | crates/rns-interface/src/backbone.rs:216-305 | an IP rejected up to a flap's time plus the block time is rejected up to that instant after every later operation exactly if no record of it carries a reading older than the flap and no prune or admission one beyond its block |
| `FastFlap.BlockLasts` | crates/rns-interface/src/backbone.rs:216-305 | an IP over grace is rejected at every instant up to its last flap plus the block time, whatever others do, provided no later-applied operation read the clock beyond that block and no later-applied disconnect of that IP before that flap |
| `FastFlap.BlockLastsFromNowOn` | crates/rns-interface/src/backbone.rs:216-305 | in particular when later operations read the clock after the flap was recorded |
| `FastFlap.BlockCanEndEarly` | crates/rns-interface/src/backbone.rs:247-263 | of two short connections of one IP, the one that read the clock first can record last and shorten the block |
| `KnownDestinations.SerializeLegacy` | crates/rns-identity/src/known_destinations.rs:242-267 | the buffer loop writes the file format for the given visiting order |
| `KnownDestinations.Deserialize` | crates/rns-identity/src/known_destinations.rs:269-345 | for any machine word the position-advancing parser returns what the format says, and panics exactly if it comes to a record whose app data ends beyond the word |
| `KnownDestinations.WideWordsSuffice` | crates/rns-identity/src/known_destinations.rs:315-319 | with 64-bit words it never indexes out of range, whatever the input |
| `KnownDestinations.PanicIsTruncation` | crates/rns-identity/src/known_destinations.rs:315-319 | with any word a panic takes the place of a truncation error, so no file the format accepts causes one |
| `KnownDestinations.ParseEntryIff` | crates/rns-identity/src/known_destinations.rs:281-329 | a record is read exactly if all of it is there; each truncation error exactly by the first part missing |
| `KnownDestinations.DecodeHeader` | crates/rns-identity/src/known_destinations.rs:269-285 | another format, a header cut short and an empty table are told apart |
| `KnownDestinations.NarrowWordsCanPanic` | crates/rns-identity/src/known_destinations.rs:315-319 | with 32-bit words a file of 133 bytes does |
| `KnownDestinations.RoundTripIff` | crates/rns-identity/src/known_destinations.rs:242-345 | for every table and visiting order the file reads back as the same table exactly if there are fewer than 2^32 entries and every app data is below 2^32 bytes |
| `KnownDestinations.DecodedFits` | crates/rns-identity/src/known_destinations.rs:269-345 | no input decodes to a table outside those bounds |
| `Basics.LittleEndianRoundTrip` | crates/rns-identity/src/known_destinations.rs:242-267 | four little-endian bytes carry a number modulo 2^32 |

## Left out

- JNI calls, enumeration and the open/claim code of `android_usb.rs`; leases are modelled for callers that release what they reserved, which the unconditional trailing release at android_usb.rs:1416-1420 does not.
- The order between background and ordinary traffic and the `ordinary_pending` window; the machine allows every order the gate and queue allow.
- KISS framing, RNode protocol state, capability evidence and snapshot publishing; a frame is its readiness and flow meaning.
- The beacon's interval; a station identification may be due at any time.
- Memory orderings of atomics; steps interleave sequentially.
- AES, HMAC, HKDF, X25519, Ed25519 and SHA-256 themselves, wiping of temporaries, and failures of key derivation; only stated laws are used.
- MessagePack bytes of rings and control states; they are values with an abstract encoding that decodes to itself.
- `durable_write`, directory barriers and power loss below the rename; failed and successful saves have the `atomic_write` outcomes.
- Rounding of floating-point times.
- Packet headers around announce bodies; the cached-response lookup returns the body and flag the packet is made of.
- File operations below `AtomicWrite` are assumptions about the environment, stated as contracts of methods with arbitrary outcomes.
- Fast-flap tables shared by listeners with different policies.
- Known-destination files without the legacy magic number, and merging or cleanup of the table.
- Received ratchets, group keys, links, proofs, transport and all socket interfaces are outside this model.
- Identity.RatchetLifetime: assumes that no other key ever held authenticates the given ciphertext, which no algebraic law of the primitives gives.
- RingCrashSafety.ReturnedKeyOnDiskIff: assumes the stored and generated keys are pairwise distinct.
- AnnounceState.EmittedTimesIncrease: assumes that a caller releases saved announces in the order it saved them; the library leaves that to its callers.
