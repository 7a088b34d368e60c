# RemoteCam: a verified model of its protocols, codecs and geometry

RemoteCam turns a phone into a camera for a Windows PC. The phone encodes video and sends it over
one TCP connection; the PC authenticates the peer, negotiates the stream format, decodes, transforms
and records the picture, and publishes finished frames in a shared-memory ring, from which camera
applications read them. This project models the parts in which a mistake would be silent (a torn
frame, a gap the decoder cannot see, an access unit decoded under the wrong format, an empty corner,
an envelope taken twice) and proves that they cannot happen, or exactly when they can.

`dafny verify dfyconfig.toml` checks everything. There is one module per file; `Wrappers` holds the
option type that the others share.

| part | modules | what is proved |
|---|---|---|
| shared-memory frame ring | `Ring`, `RingInvariant`, `RingSafety`, `RingPromises`, `RingCalls`, `FrameRing` | one atomic step per store and load, any process may die between two: no torn frame, freshness, generation isolation, one producer, exactly when a dead producer's claim is taken over, and what each call leaves behind |
| session and live formats | `Session`, `Backend`, `Controller`, `Phone`, `PhoneApp`, `PhonePromises`, `Protocol`, `ProtocolPromises` | PC threads and phone tasks over two FIFO channels: every unit belongs to the configuration committed for its generation and is what the phone encoded, no reply is unmatched, the stream starts, a format change comes to its end, and a phone with nothing left to do sends |
| two keyframe-gated queues | `Pipeline`, `MediaPath` | the decoder never gets a unit whose predecessor it missed, unless that unit is a self-contained keyframe; a keyframe that has room gets through as it arrived |
| codecs | `Bytes`, `Wire`, `Utf8`, `Cbor`, `CborCanonical`, `CborRoundTrip`, `CborCodec`, `AnnexB`, `Control`, `Capabilities` | parser and printer are exact inverses; chunking, UTF-8 validity and NAL splitting are characterised both ways |
| picture geometry | `Transform`, `Coverage`, `Framing`, `FrameCopy` | maps are inverse; Fill covers the canvas at any angle with the least scale, Fit shows the whole picture at the greatest; the stride-converting copy shears nothing |
| security | `RateLimiter`, `RateBound`, `Envelope`, `Delivery`, `Protector`, `KeyUse` | the attempt rate over whole runs; in-order delivery of exactly what the peer protected; no key ever meets the same nonce twice |
| recorder | `Timeline`, `Recorder` | a closed form of the time stamps; no frame is lost to the count; a stop loses nothing |

Where the source changes state, so does the model: `Wire.Decoder`, `CborCodec.Reader`,
`FrameRing.FrameRing`, `Controller.SessionController`, `PhoneApp.AppModel`,
`Pipeline.LiveMediaPipeline`, `RateLimiter.AttemptPolicy`, `Protector.SessionProtector`,
`Timeline.MonotonicTimeline` and `Recorder.Mp4Recorder` are classes whose methods are proved equal to
functions on values. What the program promises is proved of those functions, alone or as the steps
of a state machine, so that theorems about whole runs speak of the very code the methods contain.

Three conventions recur. A state machine has `Enabled` (or `CanStep`), a step function, and
`Possible`/`After` for runs; its theorems are about every run. Bookkeeping that the program does not
have (the log of completed frames, the position of a frame among the arrivals, what the phone encoded
it under) is marked as such where it is declared and never decides a branch. What the program
gets from elsewhere (the clock, whether a send or a push works, what the operating system says about
a process, the order of threads) is a parameter of the step.

## Model

| member | source | states |
|---|---|---|
| `RingPromises.NoTornFrame` | windows/common/src/shm_ring.cpp:635-691 | in every run, with producers dying anywhere, all bytes, size, geometry and pts that `readLatest` delivers come from one `writeFrame` call, no older than the last frame published when the attempt began and made in the consumer's own generation (as below); the geometry is sane |
| `RingPromises.GenerationIsolation` | windows/common/src/shm_ring.cpp:574-608 | that very call completed while the consumer was counted, and its producer was bound to the consumer's 32-bit generation number: to the consumer's own generation, or to one exactly a multiple of 2^32 older |
| `RingPromises.NewestSlotIsStable` | windows/common/src/shm_ring.cpp:581-628 | whatever writer died where, the slot that `writeSeq` names is even and holds exactly the frame published last |
| `RingPromises.UndisturbedReadSucceeds` | windows/common/src/shm_ring.cpp:641-691 | in any reachable state a reader that nobody disturbs, in whichever of its attempts, returns what the sequential call returns, within the steps of one attempt |
| `RingPromises.DisturbedReadStartsOver` | windows/common/src/shm_ring.cpp:641-692 | an attempt spoiled by a writer, or by a slot that holds nothing, is followed by a fresh one, up to eight in all, and then by the answer that there is nothing |
| `RingPromises.NothingOnlyThen` | windows/common/src/shm_ring.cpp:641-695 | that answer is given only when nothing is published, when the geometry is implausible, or after the eighth spoiled attempt |
| `RingPromises.DeliveredIsNv12` | windows/common/src/shm_ring.cpp:92-105 | what a reader is given is NV12 of at most 3840 by 2160 with even sides, and both its planes lie within the bytes it was given |
| `RingPromises.DeliveredEntry` | windows/common/src/shm_ring.cpp:648-690 | an unchanged even sequence identifies one completed frame of the current generation, whose every field the reader has |
| `RingPromises.OnlyTheHolderStores` | windows/common/src/shm_ring.cpp:194-199 | no step changes the section except a store by the handle that holds the write guard |
| `RingPromises.ConsumersAreCounted` | windows/common/src/shm_ring.cpp:261-279 | every open consumer is in the count, so the count is positive under it and its close never takes the wrap-around repair; what the close leaves is stated by `RingCalls.CloseConsumerAlone` |
| `RingPromises.NoResetUnderAConsumer` | windows/common/src/shm_ring.cpp:401-414 | while any consumer is open nobody advances the generation or zeroes the slots |
| `RingPromises.OneLiveProducer` | windows/common/src/shm_ring.cpp:490-510 | two live handles never both hold the producer claim, and the header names the process of the one that does |
| `RingPromises.SurvivingClaimStays` | windows/common/src/shm_ring.cpp:280-291 | no step of anybody overwrites or clears the claim of a producer that survives the step |
| `RingPromises.SecondWriterIsRefused` | windows/common/src/shm_ring.cpp:495-503 | while a producer is open, a writable `open` ends without a store and without the guard, whatever the system lets it see of the first |
| `RingPromises.StaleClaimIsTakenIff` | windows/common/src/shm_ring.cpp:148-169 | when the system hides nothing, a claim is taken over exactly when every process that it calls active under the claim's pid is told apart by a start time left with the claim. Active are the running ones and the dead ones that are still held and left exit code 259 (STILL_ACTIVE, windows/common/src/shm_ring.cpp:165), so the header's promise of automatic reclaiming (windows/common/include/rcwin/shm_ring.h:134) fails for an owner that died with that code, and for a claim without a start time whose pid was given away |
| `RingPromises.DeathInCloseWedgesTheClaim` | windows/common/src/shm_ring.cpp:285-289 | the failing case is reachable from every state with an idle producer: it dies between the two stores of `close`, its pid is given to a stranger, and from then on every faithful answer makes the claim look live |
| `RingPromises.NoStepGoesWrong` | windows/common/src/shm_ring.cpp:565-691 | in a reachable state every enabled step stays in bounds: slots, pixels, counts and the copy |
| `RingPromises.LogGrows` | windows/common/src/shm_ring.cpp:611 | completed frames are only ever added, so what a reader is promised about the log stays true |
| `RingCalls.CreateFirstAlone` | windows/common/src/shm_ring.cpp:373-386 | `create` by the process that made the section, run to its end by its holder: generation 1, one consumer, initialised, all else zero |
| `RingCalls.CreateAlone` | windows/common/src/shm_ring.cpp:387-424 | `create` on a section that existed: as first consumer it advances the generation past 0, empties all slots but their pixels and counts itself; as a further one it is counted; without initialisation or at the largest count it leaves no trace |
| `RingCalls.CloseConsumerAlone` | windows/common/src/shm_ring.cpp:261-279 | `close` of a consumer: exactly one less is counted, nothing else in the section changes, the handle is detached |
| `RingCalls.OpenWritableAlone` | windows/common/src/shm_ring.cpp:484-516 | `open` for writing: with a consumer and no live claim the header names the caller's process and start time and the handle produces for the present generation; otherwise nothing changes |
| `RingCalls.CloseProducerAlone` | windows/common/src/shm_ring.cpp:280-291 | `close` of a producer: both fields of the claim are zero, nothing else changes |
| `RingCalls.WriteFrameAlone` | windows/common/src/shm_ring.cpp:565-633 | `writeFrame` as the state machine steps it amounts to `FrameRing.Published` when a consumer is counted and the generation is the handle's, and to not one store otherwise |
| `RingCalls.ConsumerComesAndGoes` | windows/common/src/shm_ring.cpp:261-279 | a further consumer's `create` and `close` leave the section as it was |
| `RingCalls.ProducerComesAndGoes` | windows/common/src/shm_ring.cpp:280-291 | a producer's `open` and `close` leave no claim and everything else as it was |
| `RingCalls.OldProducerIsShutOut` | windows/common/src/shm_ring.cpp:401-414 | when the last consumer closes and another creates, a producer left open from before cannot store anything |
| `RingCalls.WrittenIsRead` | windows/common/src/shm_ring.cpp:565-691 | what a `writeFrame` has published is what a reader left alone after it gets, every byte and field |
| `RingCalls.Nv12IsRead` | windows/common/src/shm_ring.cpp:92-105 | every frame of that kind that fits the buffer gets through, whole |
| `RingPromises.ReachableIsSafe` | windows/common/src/shm_ring.cpp:261-691 | the ring's invariant holds after every run of create, open, close, write, read and crash steps |
| `RingSafety.InitIsSafe` | windows/common/src/shm_ring.cpp:374-386 | a freshly made, zero-filled section satisfies the invariant |
| `RingSafety.StepKeeps` | windows/common/src/shm_ring.cpp:261-691 | every step of every handle keeps the invariant |
| `RingSafety.CrashKeeps` | windows/common/src/shm_ring.cpp:194-197 | so does the death of any process at any point, which abandons the guard |
| `RingSafety.LookKeeps` | windows/common/src/shm_ring.cpp:387-424 | so does what a call decides from the header under the guard: layout, count, generation, claim |
| `RingSafety.StoreKeeps` | windows/common/src/shm_ring.cpp:591-628 | so does each single store of each guarded operation |
| `RingSafety.FinishKeeps` | windows/common/src/shm_ring.cpp:604-608 | so does the end of an operation, with the second generation check of `writeFrame` |
| `RingSafety.ReadKeeps` | windows/common/src/shm_ring.cpp:644-691 | so does every load of a reader and the retry or return that follows it |
| `RingSafety.LiveClaimIsSeen` | windows/common/src/shm_ring.cpp:142-169 | whatever the system withholds, the claim of a running producer is judged live |
| `RingInvariant.MarkKeepsRing` | windows/common/src/shm_ring.cpp:586-599 | an odd marker above the old sequence, also over one that a dead producer left odd, never touches the newest slot and lets no reader accept the slot |
| `RingInvariant.ReaderKept` | windows/common/src/shm_ring.cpp:649-687 | what a reader has copied is still there, or the sequence it will re-check has grown |
| `RingInvariant.StoreKeepsSlots` | windows/common/src/shm_ring.cpp:176-192 | while someone is counted a slot's sequence never goes back |
| `FrameRing.FrameRing.WriteFrame` | windows/common/src/shm_ring.cpp:565-633 | a write is refused on a bad size, an unready section, no consumer or another generation, and then changes nothing; otherwise its stores, in order, amount to `Published` |
| `FrameRing.FrameRing.ReadLatest` | windows/common/src/shm_ring.cpp:635-695 | the retry loop run alone returns `Latest`: nothing yet, too small, implausible geometry, or the newest frame |
| `FrameRing.FrameRing.MarkSlot` | windows/common/src/shm_ring.cpp:584-599 | the first half of a write is the store sequence that the state machine interleaves |
| `FrameRing.FrameRing.CommitSlot` | windows/common/src/shm_ring.cpp:610-628 | so is the second half |
| `FrameRing.PublishedIs` | windows/common/src/shm_ring.cpp:581-628 | a published frame is whole in its slot, whose sequence has gone from even to the next even number or past an abandoned odd one; `writeSeq` moves by one, every other slot is untouched |
| `FrameRing.WriteThenRead` | windows/common/src/shm_ring.cpp:565-691 | what is written is what is read next, byte for byte, exactly when it fits the buffer and its geometry is sane |
| `Protocol.QueuedUnitsAgree` | windows/backend/src/session_controller.cpp:656-747 | every access unit the PC has queued carries the committed generation and codec and was encoded by the phone under the very configuration committed for it |
| `Protocol.ConsumedUnitsAgree` | windows/backend/src/session_controller.cpp:749-788 | every unit the consumer ever got was encoded under the configuration, and tagged with the generation, of the consumer's last reset before it |
| `Protocol.NoFaultIsFound` | windows/backend/src/session_controller.cpp:230-338 | the PC never fails a conforming phone for a message it sent, at any point of any run |
| `Protocol.RepliesMatch` | windows/backend/src/session_controller.cpp:446-508 | every `format_ack` and `format_reject` of a conforming phone matches the pending generation when it is taken |
| `Protocol.StreamingNeedsBothEnds` | ios/RemoteCam/Sources/Network/RemoteCamSession.swift:270-291 | without authentication the PC's session gets ready only if its own setting and the phone's said so at hello, and a connected phone captures or sends only if its setting says so and the PC reported that its does |
| `Protocol.RequestAnytime` | windows/backend/src/session_controller.cpp:852-882 | with no request out, no reply is in flight, so a request may be made at any moment without confusing what is on the wire |
| `Protocol.ReachableIsOk` | ios/RemoteCam/Sources/App/AppModel.swift:157-322 | the invariant that ties both ends to the messages in flight between them holds in every run |
| `Protocol.StepKeeps` | ios/RemoteCam/Sources/App/AppModel.swift:157-322 | every step of the PC, the phone, its tasks, the wire and the watchdog keeps it |
| `Protocol.TakesAsForeseen` | windows/backend/src/session_controller.cpp:434-514 | the PC takes each message in flight as the replay of the channel foresees |
| `Protocol.FormatOrderKeepsTalk` | ios/RemoteCam/Sources/App/AppModel.swift:214-236 | `set_format` suspends video before anything else is sent, so that no old frame can follow the reply |
| `Protocol.StartKeepsTalk` | ios/RemoteCam/Sources/App/AppModel.swift:157-198 | the start task, from each await to the next, with any outcome of camera and encoder |
| `Protocol.ChangeKeepsTalk` | ios/RemoteCam/Sources/App/AppModel.swift:257-322 | the reconfigure task likewise: ack under the new configuration, reject under the old one restored, or the end of the connection; either reply leaves the phone sending in the configuration it names |
| `Protocol.VideoKeepsTalk` | ios/RemoteCam/Sources/Network/RemoteCamSession.swift:219-230 | a frame that is sent is one the PC will take under the configuration it was encoded for, or drop |
| `ProtocolPromises.StreamingPhoneSends` | ios/RemoteCam/Sources/App/AppModel.swift:181-188 | in every run a connected phone that the PC streams from and that has no task left encodes in the configuration the PC will have committed to, and what it encodes goes out |
| `ProtocolPromises.StreamStarts` | ios/RemoteCam/Sources/App/AppModel.swift:157-188 | from the connection on, where both settings allow it and camera and encoder work, the run of hello, ready, start task and stream_start ends with both ends at rest in the initial configuration, the consumer told, and video going out |
| `ProtocolPromises.FormatChangeCompletes` | windows/backend/src/session_controller.cpp:434-476 | a change asked for at rest, on a phone that can have it, ends with both ends at rest in the new configuration under the request's generation, the consumer told, and video going out |
| `ProtocolPromises.FormatChangeIsUndone` | windows/backend/src/session_controller.cpp:478-514 | on a phone that cannot have it but still has the old one, it ends with both ends at rest in the old configuration, the consumer told nothing, and video going out |
| `ProtocolPromises.UnitsWereEncoded` | ios/RemoteCam/Sources/Network/RemoteCamSession.swift:219-230 | over every run of both ends each unit that the PC queues or hands on has the bytes, keyframe flag and time stamp of one that the phone's encoder delivered, under the configuration it was encoded for |
| `Backend.EverySessionIsOk` | windows/backend/src/session_controller.cpp:120-157 | over any interleaving of the PC's threads: ready or streaming implies trusted with a stored hello; disconnected implies that nothing is left of a peer; a format is pending exactly when its generation is not 0, which exceeds the committed one; depth and bytes are the queue's and within limits; waiting implies an empty queue; tokens increase and units carry the committed format |
| `Backend.UnitsFollowTheirReset` | windows/backend/src/session_controller.cpp:423-432 | over any run each unit handed to the consumer follows a reset for its generation and codec |
| `Backend.PopRemovesTheConsumed` | windows/backend/src/session_controller.cpp:777-786 | after a consume, whatever flushed the queue meanwhile, only the unit just consumed is removed |
| `Backend.StepKeeps` | windows/backend/src/session_controller.cpp:159-403 | each section of each handler, format requests from another thread and the watchdog between sections keep the session invariant |
| `Backend.HandshakeKeeps` | windows/backend/src/session_controller.cpp:251-271 | hello and auth_response in any state |
| `Backend.ReplyKeeps` | windows/backend/src/session_controller.cpp:434-514 | format replies in any state, matched or not |
| `Backend.AdmissionKeeps` | windows/backend/src/session_controller.cpp:710-740 | the second section of `handleVideo`, although the first one's view may be out of date |
| `Backend.UnitsAreTheirFrames` | windows/backend/src/session_controller.cpp:728-734 | over any run each unit queued or handed to the consumer has the payload, keyframe flag and time stamp of the very frame that arrived when its origin says |
| `Backend.FrameIsQueued` | windows/backend/src/session_controller.cpp:710-740 | an acceptable frame that fits, and that is a keyframe or follows one, is queued last, as it is, under the committed codec and generation |
| `Backend.FrameIsPassedOver` | windows/backend/src/session_controller.cpp:713-716 | while a keyframe is awaited any other frame changes nothing |
| `Backend.FrameFlushes` | windows/backend/src/session_controller.cpp:690-708 | a frame that is not what it says, or finds no room (windows/backend/src/session_controller.cpp:722-726), costs the queue, and a keyframe is awaited |
| `Backend.FrameIsDropped` | windows/backend/src/session_controller.cpp:671-683 | untrusted, not streaming, or with a change or a reset under way, a frame changes nothing |
| `Backend.KeyframeIsConsumed` | windows/backend/src/session_controller.cpp:749-788 | a keyframe that finds an empty queue and a willing consumer is handed over at once |
| `Backend.BusyConsumerLosesNothing` | windows/backend/src/session_controller.cpp:772-776 | what a busy consumer did not take stays at the front of the queue |
| `Backend.FaultIff` | windows/backend/src/session_controller.cpp:230-338 | a control message fails the session exactly when it is out of turn: anything before hello, a second hello, a proof that is not due or not accepted, a reply that answers no open request, a start at the wrong time; and then it does nothing else |
| `Backend.UntrustedIsIgnored` | windows/backend/src/session_controller.cpp:272-275 | what an untrusted peer says beyond hello and proof changes nothing |
| `Backend.HelloIsJudged` | windows/backend/src/session_controller.cpp:552-561 | the first hello makes the session ready or leaves it awaiting a proof, by the verdict of the trust policy alone |
| `Backend.ProofMakesReady` | windows/backend/src/session_controller.cpp:640-646 | an accepted proof makes the awaiting session trusted and ready, and changes nothing else |
| `Backend.TrustIsEarned` | windows/backend/src/session_controller.cpp:276-279 | over any run a session is trusted, ready or streaming only with a peer that was vouched for, by the policy at hello or by a proof, and that has been the same one since |
| `Session.EnqueueKeeps` | windows/backend/src/session_controller.cpp:712-739 | admission, overflow and the keyframe gate keep the invariant |
| `Session.PopKeeps` | windows/backend/src/session_controller.cpp:781-785 | so does the pop by token, which removes the front unit or nothing |
| `Session.FormatSectionsKeep` | windows/backend/src/session_controller.cpp:852-882 | so do request, commit and reject of a format |
| `Session.LifecycleSectionsKeep` | windows/backend/src/session_controller.cpp:803-819 | so do connect, disconnect, failure, stream start and the flush |
| `Session.TrustSectionsKeep` | windows/backend/src/session_controller.cpp:552-561 | so do hello and authentication |
| `Session.RequestIff` | windows/backend/src/session_controller.cpp:852-882 | a format request goes out exactly when it is valid, the stream runs, nothing is under way and the connection takes it; then it is the one open request |
| `Session.UnsentRequestLeaves` | windows/backend/src/session_controller.cpp:852-882 | one that does not go out leaves no new request open and the format as it was; one that failed to send has used up its number and flushed the queue |
| `Controller.SessionController.OnConnected` | windows/backend/src/session_controller.cpp:120-149 | every field after a connection is accepted, with the refusal of an invalid configuration |
| `Controller.SessionController.OnDisconnected` | windows/backend/src/session_controller.cpp:803-819 | every field after a connection has gone |
| `Controller.SessionController.HandleHello` | windows/backend/src/session_controller.cpp:552-561 | hello stores the peer and decides between ready and awaiting trust |
| `Controller.SessionController.HandleAuthenticated` | windows/backend/src/session_controller.cpp:640-646 | an accepted proof makes the session trusted and ready, and changes nothing else |
| `Controller.SessionController.ProtocolFailure` | windows/backend/src/session_controller.cpp:405-413 | a protocol failure changes the state only |
| `Controller.SessionController.BeginStream` | windows/backend/src/session_controller.cpp:311-331 | the stream starts exactly once, from ready, with no format pending and no reset under way |
| `Controller.SessionController.ResetDone` | windows/backend/src/session_controller.cpp:333-336 | the end of a consumer reset reopens the queue and changes nothing else |
| `Controller.SessionController.HandleFormatAck` | windows/backend/src/session_controller.cpp:434-476 | an ack commits the pending format exactly when the generation matches and no reset is under way; otherwise nothing changes |
| `Controller.SessionController.HandleFormatReject` | windows/backend/src/session_controller.cpp:478-508 | a matched reject reopens the committed format behind a flushed queue; otherwise nothing changes |
| `Controller.SessionController.SendFormat` | windows/backend/src/session_controller.cpp:852-882 | the answer to the caller, and the pending format and its generation, recorded before sending and withdrawn when that fails |
| `Controller.SessionController.AdmitUnit` | windows/backend/src/session_controller.cpp:710-740 | skip, overflow or admit, and the whole session afterwards; an admitted unit is queued last with the frame's own payload, flag and time stamp |
| `Controller.SessionController.HandleVideo` | windows/backend/src/session_controller.cpp:656-747 | a frame that no other thread interrupts: dropped, refused with a flush, or admitted, and then queued last as it is |
| `Controller.SessionController.DrainQueue` | windows/backend/src/session_controller.cpp:749-788 | the consumer gets the longest prefix it is willing to take, in order, and the rest stays queued with its bytes counted |
| `Controller.InspectFrame` | windows/backend/src/session_controller.cpp:688-691 | a frame passes exactly when its bitstream is a video access unit that is what the flag says, self-contained if a keyframe |
| `Phone.ValidityAgrees` | ios/RemoteCam/Sources/Models/StreamConfiguration.swift:37-51 | the phone's check, with its quotient, and the PC's (core/src/control.cpp:143-154), with its product, accept the same configurations |
| `PhonePromises.StartSucceeds` | ios/RemoteCam/Sources/App/AppModel.swift:157-188 | after a valid `ready`, when camera and encoder work, the phone tells, announces the start and then sends: running in that configuration, with no task left; until then nothing goes out |
| `PhonePromises.StartFailsAtOnce` | ios/RemoteCam/Sources/App/AppModel.swift:165-167 | when the encoder refuses, nothing is announced and the connection is given up |
| `PhonePromises.StartFailsLater` | ios/RemoteCam/Sources/App/AppModel.swift:168-173 | so it is when the camera refuses after the encoder accepted |
| `PhonePromises.ChangeSucceeds` | ios/RemoteCam/Sources/App/AppModel.swift:257-281 | after a valid `set_format`, when the new format works, the phone acknowledges it, and with the ack as its last word it runs and sends in it; until then nothing goes out |
| `PhonePromises.ChangeIsUndone` | ios/RemoteCam/Sources/App/AppModel.swift:286-309 | when encoder or camera refuse the new format and the old one still works, the reject is the last word and the phone runs and sends in the old one |
| `PhonePromises.ChangeFails` | ios/RemoteCam/Sources/App/AppModel.swift:310-320 | when neither can be had there is no reply and the connection is given up |
| `PhonePromises.InvalidFormatIsRejected` | ios/RemoteCam/Sources/App/AppModel.swift:217-226 | an invalid format is rejected at once and the stream goes on as it was |
| `PhonePromises.StartIsRefused` | ios/RemoteCam/Sources/App/AppModel.swift:49-61 | a `ready` that one end has not allowed, or that is invalid, ends the connection |
| `PhonePromises.ChangeIsIgnored` | ios/RemoteCam/Sources/App/AppModel.swift:214-216 | a `set_format` whose generation is not new, or before both ends allow video, does nothing |
| `PhonePromises.BothMustAllow` | ios/RemoteCam/Sources/Network/RemoteCamSession.swift:270-280 | video is allowed exactly when both ends said so |
| `PhonePromises.NeverStuck` | ios/RemoteCam/Sources/App/AppModel.swift:214-322 | over every run of the phone, with any orders in any order and any outcomes, video is suspended on a connected phone that was told to stream only while the newest order is being worked on |
| `PhonePromises.DoneMeansSending` | ios/RemoteCam/Sources/App/AppModel.swift:281-281 | so with no task left it sends |
| `PhonePromises.SupersededTaskIsSilent` | ios/RemoteCam/Sources/App/AppModel.swift:264-294 | a task whose order has been superseded sends no reply, resumes no video and gives nothing up, unless it was already past its last check of the stream generation |
| `PhonePromises.OneNewestTask` | ios/RemoteCam/Sources/App/AppModel.swift:227-236 | in every run at most one task, the one queued last, is that of the newest order |
| `PhonePromises.NewOrderSupersedes` | ios/RemoteCam/Sources/App/AppModel.swift:227-229 | an order that is followed supersedes every task still running |
| `PhoneApp.AppModel.OnServerInfo` | ios/RemoteCam/Sources/Network/RemoteCamSession.swift:270-280 | the downgrade is negotiated by both halves or not at all |
| `PhoneApp.AppModel.OnReadyMessage` | ios/RemoteCam/Sources/App/AppModel.swift:49-61 | an untrusted or invalid ready ends the connection; a good one suspends video and queues the start task under a new stream generation |
| `PhoneApp.AppModel.OnSetFormat` | ios/RemoteCam/Sources/App/AppModel.swift:214-236 | stale generations are ignored, invalid formats rejected at once, others queue a task with video suspended |
| `PhoneApp.AppModel.ResumeStreaming` | ios/RemoteCam/Sources/App/AppModel.swift:157-198 | `startStreaming` from each await to the next |
| `PhoneApp.AppModel.ResumeReconfigure` | ios/RemoteCam/Sources/App/AppModel.swift:257-322 | `reconfigure` from each await to the next, with the restore of the previous configuration; where its runs end is stated by `PhonePromises.ChangeSucceeds` and its neighbours |
| `PhoneApp.AppModel.SendVideo` | ios/RemoteCam/Sources/Network/RemoteCamSession.swift:219-230 | nothing while suspended; otherwise the unit, if the transport's budget has room |
| `MediaPath.NoHiddenGap` | windows/app/live_media_pipeline.cpp:346-436 | through both queues and every overflow, failure, reset and format change, each unit the decoder gets arrived right behind the one before it or is a keyframe; the first, also after any flush or rebuild, is a keyframe; keyframes are self-contained |
| `MediaPath.NoMixedFormats` | windows/app/live_media_pipeline.cpp:369-395 | over any run, between two units of different generations or codecs the decoder was rebuilt or flushed |
| `MediaPath.StepKeepsPath` | windows/backend/src/session_controller.cpp:656-801 | the invariant behind it, kept by every section of the session and every step of the worker |
| `MediaPath.OfferKeeps` | windows/app/live_media_pipeline.cpp:346-367 | a unit let into the second queue follows the last one let in, or opens it anew |
| `MediaPath.PushKeeps` | windows/app/live_media_pipeline.cpp:401-434 | a failed codec selection or push flushes everything that would follow the lost unit |
| `MediaPath.AdmissibleIsStartable` | windows/backend/src/session_controller.cpp:688-707 | a keyframe the session admits has its parameter sets in front of it |
| `MediaPath.FedUnitsAreTheirFrames` | windows/app/live_media_pipeline.cpp:412-417 | over any run what the decoder is fed, holds or will be fed has the bytes, keyframe flag and time stamp of the frame that arrived when its origin says |
| `MediaPath.KeyframeIsLetIn` | windows/app/live_media_pipeline.cpp:358-362 | with room, a keyframe is let in behind what is queued and the gate is open |
| `MediaPath.KeyframeGetsThrough` | windows/backend/src/session_controller.cpp:656-788 | an acceptable keyframe that arrives at an empty path is fed to the decoder, as it arrived, under the committed codec and generation |
| `Pipeline.LiveMediaPipeline.Consume` | windows/app/live_media_pipeline.cpp:346-367 | skip, flush with a keyframe request, or append, with the byte count of the queue |
| `Pipeline.LiveMediaPipeline.Reset` | windows/app/live_media_pipeline.cpp:369-379 | the queue is flushed and the decoder's rebuild pending |
| `Pipeline.LiveMediaPipeline.TakeNext` | windows/app/live_media_pipeline.cpp:381-399 | a pending reset comes before any queued unit |
| `Pipeline.LiveMediaPipeline.PushHeld` | windows/app/live_media_pipeline.cpp:401-435 | the unit reaches the decoder, or queue and decoder are flushed |
| `Wire.ChunkingIndependence` | core/src/wire.cpp:77-128 | from any live state and for every cutting of the stream, the frames, the sticky error and the leftover are those of the one-shot parser |
| `Wire.AnyChunkingDeliversTheFrames` | core/src/wire.cpp:49-128 | encoded frames come back exactly, however the stream is cut, with no error and nothing left |
| `Wire.ParseIsInverse` | core/src/wire.cpp:84-118 | the frames and the leftover of any stream re-encode to that very stream |
| `Wire.ParsedFramesAreEncodable` | core/src/wire.cpp:90-105 | every frame the parser accepts is one the encoder would send |
| `Wire.ParseEncodedAll` | core/src/wire.cpp:49-63 | any list of encodable frames parses back |
| `Wire.ParseResumes` | core/src/wire.cpp:84-107 | parsing may stop anywhere and resume from what was left |
| `Wire.RestIsBounded` | core/src/wire.cpp:87-107 | a live decoder waits for less than 16 MiB and 16 bytes |
| `Wire.FailureIsSticky` | core/src/wire.cpp:78-81 | a failed decoder stays as it is and repeats its error, whatever arrives |
| `Wire.Encode` | core/src/wire.cpp:49-63 | appends exactly the frame's bytes when the peer would accept it, and nothing otherwise |
| `Wire.CheckHeader` | core/src/wire.cpp:85-105 | the header's verdict in the program's order, before any byte of the body is awaited |
| `Wire.Decoder.Append` | core/src/wire.cpp:77-128 | the buffer with its offset and in-place compaction is the abstract decoder; every byte of a delivered frame and no other passes the offset; the dead prefix stays under 1 MiB and half of the buffer; compaction has moved at most 17 bytes per byte consumed |
| `Wire.Decoder.TakeFrames` | core/src/wire.cpp:84-118 | the loop takes the parser's frames and stops at its leftover or error |
| `Wire.Decoder.Compact` | core/src/wire.cpp:120-126 | compaction loses nothing and pays for itself |
| `Wire.Decoder.Reset` | core/src/wire.cpp:70-75 | a reset decoder is a fresh one |
| `Wire.Receive` | core/src/wire.cpp:77-132 | a fresh decoder fed chunk by chunk delivers what the whole stream parses to |
| `Utf8.IsValidUtf8` | core/src/cbor.cpp:177-214 | accepts a byte string exactly when it is the UTF-8 encoding (sections 3 and 4 of RFC 3629) of some sequence of Unicode scalar values |
| `Utf8.WellFormedIffUtf8` | core/src/cbor.cpp:204-210 | the lead, continuation, overlong, surrogate and range rules together describe exactly the encodings |
| `Utf8.DecodingIsUnique` | core/src/cbor.cpp:177-214 | an accepted byte string spells one text only |
| `CborRoundTrip.RoundTrip` | core/src/cbor.cpp:216-338 | decoding an encoded value followed by any bytes gives the value back and stops right behind it, for every value the program can hold; with something behind it the whole input is refused |
| `CborRoundTrip.CanonicalIffReencodes` | core/src/cbor.cpp:496-582 | whatever is accepted is a value the program can hold, and re-encodes to the same bytes exactly when they are in canonical form: keys ascending in every map, every real a binary64 (section 3.9 of RFC 7049) |
| `CborCanonical.FlagIsCanonical` | core/include/rc/cbor.h:65-71 | canonical form, defined on the bytes alone, is what the flag in the decoder's specification records |
| `CborRoundTrip.EncodingIsPrefixFree` | core/src/cbor.cpp:496-571 | no two values share an encoding and none is a proper prefix of another |
| `CborRoundTrip.HeadReads` | core/src/cbor.cpp:31-48 | the shortest head reads back as its type and argument |
| `CborRoundTrip.HeadInverse` | core/src/cbor.cpp:133-163 | an accepted head is the shortest one of its argument |
| `Cbor.InsertIsSorted` | core/include/rc/cbor.h:65-71 | inserting a new key keeps a map in the length-first order and adds that entry only |
| `CborCodec.DecodeAll` | core/src/cbor.cpp:573-582 | the reading loops compute the decoder on bytes: every encoding is accepted and only valid values come out |
| `CborCodec.EncodeAll` | core/src/cbor.cpp:567-571 | the appending loops compute the encoding, which decodes to the value |
| `CborCodec.DecodeFrom` | core/src/cbor.cpp:216-338 | one value read at a depth, with the program's errors in the program's order |
| `CborCodec.DecodeArrayFrom` | core/src/cbor.cpp:265-279 | items one deeper, at most 100000 of them |
| `CborCodec.DecodeEntriesFrom` | core/src/cbor.cpp:285-297 | entries go to their places in the ordered map, a repeated key is an error |
| `CborCodec.ReadArgument` | core/src/cbor.cpp:133-163 | the argument of a head, refused when a shorter head would have done |
| `CborCodec.Reader.ReadBytes` | core/src/cbor.cpp:117-122 | a count beyond the input is refused before anything is sized from it |
| `CborCodec.Reader.ReadNumber` | core/src/cbor.cpp:106-113 | big-endian bytes as a number, or truncation |
| `CborCodec.AppendHead` | core/src/cbor.cpp:31-48 | the shortest head is what gets appended |
| `CborCodec.EncodeInto` | core/src/cbor.cpp:496-565 | a value of any type, appended as its encoding |
| `CborCodec.Emplace` | core/src/cbor.cpp:296 | an entry is inserted exactly when its key is new |
| `AnnexB.SplitIsExact` | core/src/annexb.cpp:46-79 | a NAL is reported exactly when it is one in the sense of section B.1 of ITU-T H.264: behind 00 00 01, non-empty, free of start codes, up to the next one or the end |
| `AnnexB.SplitIsOrdered` | core/src/annexb.cpp:57-77 | the NALs come in order, disjoint, separated by start codes |
| `AnnexB.Split` | core/src/annexb.cpp:46-79 | the scanning loops find those NALs |
| `AnnexB.AppendConverted` | ios/RemoteCam/Sources/Capture/VideoEncoder.swift:248-258 | the phone's loop rewrites the units of a length-prefixed buffer, up to the first empty or truncated one, behind start codes |
| `AnnexB.SplitInvertsConverter` | ios/RemoteCam/Sources/Capture/VideoEncoder.swift:231-259 | for non-empty units without start codes, of any number and length that fits the prefix, the PC finds exactly those units |
| `AnnexB.TypesSurvive` | core/src/annexb.cpp:33-36 | the PC finds the units the encoder wrote, each with the type that was written into its header |
| `AnnexB.TypeIsRead` | core/src/annexb.cpp:33-36 | the type read from a header byte put together from its bit fields is the one put in: bits 0 to 4 in H.264, bits 1 to 6 in HEVC |
| `AnnexB.SelfContainedIff` | core/src/annexb.cpp:93-130 | by the types written into its units, by their numbers in the standards, an access unit is taken for self-contained exactly when every parameter set precedes the first keyframe slice |
| `AnnexB.SlicesIff` | core/src/annexb.cpp:38-42 | it is seen to hold video, and a keyframe, exactly when a slice of such a number was written |
| `AnnexB.Inspect` | core/src/annexb.cpp:93-130 | every field of the report says what it is named for, about the NALs there are; self-contained exactly when each parameter set precedes the first keyframe slice |
| `AnnexB.Summarise` | core/src/annexb.cpp:100-129 | the one-pass flags compute those facts |
| `AnnexB.PhoneKeyframeIsSelfContained` | ios/RemoteCam/Sources/Capture/VideoEncoder.swift:233-235 | a keyframe as the phone builds it, units of the parameter sets' types first, passes the PC's inspection |
| `Control.MessageRoundTrip` | core/src/control.cpp:66-96 | a message comes back as it was exactly when it fits 1 MiB and has no field named like the type key |
| `Control.MessageDecodes` | core/src/control.cpp:74-96 | what any message decodes to, with a field of that name lost and the cap applied before decoding |
| `Control.MessageReencodes` | core/src/control.cpp:84-95 | accepted bytes are those of the message they give exactly when they are in canonical form |
| `Control.MessageToBytes` | core/src/control.cpp:66-72 | the composed encoder |
| `Control.MessageFromBytes` | core/src/control.cpp:74-96 | the composed decoder with its four errors |
| `Capabilities.CapsRoundTrip` | core/src/control.cpp:524-623 | through message, CBOR and cap, a capability tree arrives with each format list sorted and otherwise unchanged, exactly when it fits and every camera, format and codec is acceptable |
| `Capabilities.CapsParse` | core/src/control.cpp:524-582 | the same without the bytes |
| `Capabilities.OrderedIsSorted` | core/src/control.cpp:595-601 | sorting orders the formats and loses or invents none |
| `Capabilities.OneOrder` | core/src/control.cpp:596-601 | there is only one such order, so it does not matter how the program sorts |
| `Capabilities.SortFormats` | core/src/control.cpp:595-601 | the array is put in that order in place |
| `Capabilities.BuildCaps` | core/src/control.cpp:584-623 | the builder's loops make that tree |
| `Capabilities.ReadCaps` | core/src/control.cpp:524-582 | the reader's loops, with their early returns, accept exactly what `ParseCaps` does |
| `Capabilities.ReadCamera` | core/src/control.cpp:536-569 | one camera |
| `Capabilities.ReadFormats` | core/src/control.cpp:553-568 | one format list |
| `Coverage.FillNeverShowsAnEdge` | core/src/transform.cpp:103-111 | at every rotation, flip, positive size and pan, after the clamp the whole canvas samples inside the source, exactly when the zoom does not shrink the picture |
| `Coverage.ClampCoversIff` | core/src/transform.cpp:188-214 | in any mode, the clamp achieves coverage exactly when the window is no larger than the source |
| `Coverage.ClampKeepsCoveringPan` | core/src/transform.cpp:207-213 | a pan that covers is left alone |
| `Coverage.ClampIsIdempotent` | core/src/transform.cpp:188-214 | clamping twice is clamping once |
| `Coverage.FillScaleIsLeast` | core/src/transform.cpp:104-110 | with no pan, a uniform scale covers exactly from the Fill scale on |
| `Coverage.CoverageIff` | core/src/transform.cpp:179-185 | coverage of all canvas points is two inequalities about the half-extents that `panSlack` computes |
| `Framing.ShowsIff` | core/src/transform.cpp:144-147 | that the whole picture is on the canvas is two inequalities about the box around the turned picture |
| `Framing.FitScaleIsGreatest` | core/src/transform.cpp:97-101 | with no pan, a uniform scale shows the whole turned picture exactly up to the Fit scale |
| `Framing.StretchIsExact` | core/src/transform.cpp:112-115 | unzoomed and with no pan, Stretch shows the whole picture and brings it to all four edges |
| `Coverage.MapsAreInverse` | core/src/transform.cpp:144-167 | `sourceToDest` and `destToSource` undo each other at every point, degenerate parameters included |
| `Coverage.DestToSourceForm` | core/src/transform.cpp:149-167 | the six-factor product acts as its primitives in turn |
| `Coverage.ClampedPan` | core/src/transform.cpp:200-213 | in source axes the clamp moves the pan to the nearest one in the slack box |
| `Transform.ClampPanForCoverage` | core/src/transform.cpp:188-214 | the method that changes its argument computes `Clamped` |
| `Transform.Multiply` | core/src/transform.cpp:63-73 | the three nested loops compute the matrix product |
| `Transform.MulApply` | core/src/transform.cpp:63-77 | applying a product is applying its factors, right one first |
| `FrameCopy.EveryLumaByte` | windows/vcam/frame_source.cpp:73-82 | every visible luma byte of the copy is the source byte at the same row and column, whatever the two strides |
| `FrameCopy.EveryChromaByte` | windows/vcam/frame_source.cpp:83-93 | so is every visible chroma byte |
| `FrameCopy.PlanesFit` | windows/common/src/shm_ring.cpp:92-105 | a frame that passes the geometry check, and a destination of its size with stride at least the width, keep every row of both planes in bounds |
| `FrameCopy.CopyFrame` | windows/vcam/frame_source.cpp:68-93 | both planes are copied row by row with the padding value, and nothing behind the frame is touched |
| `FrameCopy.CopyPlane` | windows/vcam/frame_source.cpp:73-82 | a plane's rows are done and nothing around the plane is touched |
| `FrameCopy.CopyRow` | windows/vcam/frame_source.cpp:74-81 | one row: bytes, then padding |
| `RateBound.RateIsBounded` | windows/security/src/rate_limiter.cpp:17-85 | over any run under a steady clock, attempts begun within the shorter of cooldown and failure window and not refunded are at most `maxAttemptsGlobal`, and per peer at most `maxAttemptsPerSource`, although three rules erase history |
| `RateBound.NoLongerSpan` | windows/security/src/rate_limiter.cpp:18-25 | the span cannot be made longer: with a cooldown shorter than the window, a limit of one lets two attempts begin within a window |
| `RateBound.PruneKeeps` | windows/security/src/rate_limiter.cpp:17-39 | pruning forgets only what is old enough, by whichever rule |
| `RateBound.ChargeKeeps` | windows/security/src/rate_limiter.cpp:59-68 | a charge stays within the limits and starts the cooldowns in time |
| `RateBound.RefundKeeps` | windows/security/src/rate_limiter.cpp:77-84 | a refund lifts a block only where the limits allow |
| `RateBound.SuccessUndoesAttempt` | windows/security/src/rate_limiter.cpp:71-85 | after any run, an attempt that succeeds before its cooldown is over and within the window leaves no trace but its number: its charge and every cooldown that it alone started are gone |
| `RateBound.PeerIsShutOut` | windows/security/src/rate_limiter.cpp:62-64 | the attempt that reaches a peer's limit shuts the peer out until its cooldown is over |
| `RateBound.AllAreShutOut` | windows/security/src/rate_limiter.cpp:65-67 | the one that reaches the limit for all shuts everybody out |
| `RateBound.QuietOpensToAll` | windows/security/src/rate_limiter.cpp:17-53 | nobody is shut out for ever: after any run, once a cooldown and the window have passed quietly, every peer may try |
| `RateBound.NamelessIsRefused` | windows/security/src/rate_limiter.cpp:41-45 | without a name, or under a limit of 0, nothing is tried and nothing changes |
| `RateLimiter.AttemptPolicy.Prune` | windows/security/src/rate_limiter.cpp:17-39 | the three erasures, in the program's order |
| `RateLimiter.AttemptPolicy.EndCooldowns` | windows/security/src/rate_limiter.cpp:27-35 | erasing while iterating removes exactly the peers whose cooldown is over, in whatever order they come |
| `RateLimiter.AttemptPolicy.Allowed` | windows/security/src/rate_limiter.cpp:41-53 | the answer and what asking changes |
| `RateLimiter.AttemptPolicy.BeginAttempt` | windows/security/src/rate_limiter.cpp:55-69 | the id or the refusal, the charge and the cooldowns it starts |
| `RateLimiter.AttemptPolicy.FinishAttempt` | windows/security/src/rate_limiter.cpp:71-85 | the refund of a success, and nothing on a failure or an unknown id |
| `Delivery.AcceptedIsAPrefix` | windows/security/src/crypto.cpp:353-506 | whatever the network drops, repeats, reorders or alters, what a channel has accepted is exactly the first records the peer protected, headers included, at most 2^32 |
| `Delivery.AcceptedIffNext` | windows/security/src/crypto.cpp:395-430 | an envelope is accepted exactly when it is bit for bit the one made of the record that is due |
| `Delivery.NextCanBeAccepted` | windows/security/src/crypto.cpp:403-429 | nothing delivered in between costs the record that is due |
| `Delivery.GenuineIsAccepted` | windows/security/src/crypto.cpp:432-497 | on both kinds of channel, what was protected is recovered by a receiver that expects it |
| `Delivery.NoNonceRecurs` | windows/security/src/crypto.cpp:432-468 | over any run one channel's sender never seals two records under the same nonce; across channels and ends see `KeyUse.NoPairRecursIff` |
| `Delivery.NoncesDiffer` | windows/security/src/crypto.cpp:205-213 | different sequence numbers never share a nonce |
| `Delivery.EachRecordItsOwnNumber` | windows/security/src/crypto.cpp:500-506 | the number a sender uses is the record's own position, up to exhaustion |
| `Delivery.SentIff` | windows/security/src/crypto.cpp:353-393 | over any run the sender takes exactly what is not yet marked encrypted and fits, while fewer than 2^32 records have gone out, and sends it as the next one |
| `Delivery.NothingAfterExpiry` | windows/security/src/crypto.cpp:353-497 | once the session has expired neither end sends or accepts anything |
| `Envelope.AuthDataInjective` | windows/security/src/crypto.cpp:189-203 | the authenticated bytes determine size, channel, flags, pts, sequence and payload |
| `Envelope.EnvelopeAuthenticationData` | windows/security/src/crypto.cpp:189-203 | the appended bytes are those |
| `Protector.SessionProtector.ProtectControl` | windows/security/src/crypto.cpp:353-393 | the result, and the channel's counter advanced only on success |
| `Protector.SessionProtector.UnprotectControl` | windows/security/src/crypto.cpp:395-430 | likewise; a rejected envelope changes nothing |
| `Protector.SessionProtector.ProtectMedia` | windows/security/src/crypto.cpp:432-468 | likewise, with the encrypted flag under the tag; which key that is for each channel is stated by `KeyUse.KeysByChannel` |
| `Protector.SessionProtector.UnprotectMedia` | windows/security/src/crypto.cpp:470-497 | likewise |
| `Protector.SessionProtector.constructor` | windows/security/src/crypto.cpp:323-340 | new counters, and each role's keys |
| `Protector.PeersShareKeys` | windows/security/src/crypto.cpp:323-337 | on every channel each end opens with the keys the other protects with; which they are is stated by `KeyUse.KeysByChannel` |
| `KeyUse.KeysByChannel` | windows/security/src/crypto.cpp:524-538 | in terms of the session keys, for each role and direction: video under the video keys, statistics under the statistics keys whether encrypted or only authenticated, control under the control keys |
| `KeyUse.NoPairRecurs` | windows/security/src/crypto.cpp:432-468 | over every run of sends on any channels of both ends, when video and statistics have keys of their own in both directions, no key seals two records under the same nonce |
| `KeyUse.NoPairRecursIff` | windows/security/src/crypto.cpp:432-468 | and only then: whichever two of the four coincide, two sends repeat a pair |
| `KeyUse.SealsAreListed` | windows/security/src/crypto.cpp:452-466 | the key and nonce listed for a record in those runs are those under which its bytes on the wire were sealed |
| `Timeline.StampClosedForm` | windows/platform/src/mp4_recorder.cpp:94-119 | the n-th stamp is the largest projection of any earlier frame at the nominal rate, capped at the largest LONGLONG |
| `Timeline.StampsKeepApart` | windows/platform/src/mp4_recorder.cpp:112-117 | stamps k frames apart are at least k durations apart until time ends, and never run backwards |
| `Timeline.LateFramesStay` | windows/platform/src/mp4_recorder.cpp:102-110 | frames that never come too fast keep their own offsets |
| `Timeline.OffsetIsElapsed` | windows/platform/src/mp4_recorder.cpp:102-110 | an offset is the time that went by since the first frame, in units of 100 ns, up to the largest LONGLONG |
| `Timeline.DurationIsShare` | windows/platform/src/mp4_recorder.cpp:90-92 | a frame's duration is the largest whole number of such units in its share of a second |
| `Timeline.MonotonicTimeline.Next` | windows/platform/src/mp4_recorder.cpp:94-119 | the method computes the stamp of everything seen so far; the product, the sums and the sample's end all fit their 64-bit types |
| `Timeline.MonotonicTimeline.constructor` | windows/platform/src/mp4_recorder.cpp:90-92 | the duration of every frame rate that `validateConfig` lets through is positive and fits |
| `Recorder.FramesAreConserved` | windows/platform/src/mp4_recorder.cpp:191-424 | after every step of every run submitted frames are written, dropped, queued, in hand or about to be reported dropped; once ended, written or dropped |
| `Recorder.WrittenInOrder` | windows/platform/src/mp4_recorder.cpp:354-394 | frames are written in the order of submission, none twice |
| `Recorder.FullQueueGivesUpTheOldest` | windows/platform/src/mp4_recorder.cpp:199-210 | an accepted frame is queued last; a full queue gives up the frame submitted before all others still queued, one with room gives up none |
| `Recorder.PhaseSaysWhere` | windows/platform/src/mp4_recorder.cpp:343-424 | the state shown is where the worker is |
| `Recorder.CompletedIff` | windows/platform/src/mp4_recorder.cpp:407-424 | a recording is shown as completed exactly when its file has got to its place and none has been started since |
| `Recorder.StopWritesWhatIsQueued` | windows/platform/src/mp4_recorder.cpp:354-424 | when nothing fails, a stop loses nothing: every frame still queued is written, in order, and the recording completes |
| `Recorder.ShortRecordingIsWhole` | windows/platform/src/mp4_recorder.cpp:137-424 | a recording of no more frames than its queue holds is written whole, even if the worker gets to none of them before the stop |
| `Recorder.StepKeeps` | windows/platform/src/mp4_recorder.cpp:137-424 | every step of callers and worker keeps the accounting |
| `Recorder.Mp4Recorder.EnqueueFrame` | windows/platform/src/mp4_recorder.cpp:191-215 | the answer, the queue without its oldest when full, and the counts |
| `Recorder.Mp4Recorder.TakeFrame` | windows/platform/src/mp4_recorder.cpp:354-370 | the oldest frame, or the end when asked to stop with nothing queued |
| `Recorder.Mp4Recorder.DiscardAndFail` | windows/platform/src/mp4_recorder.cpp:274-292 | everything queued and in hand is counted as dropped |
| `Recorder.Mp4Recorder.RequestStop` | windows/platform/src/mp4_recorder.cpp:217-225 | no new frames, but those queued are still written |

## Left out

Where the model says less than one might expect:

- RingPromises.NoTornFrame: the header's single `format` field is not part of the claim, since it is not per slot (windows/common/src/shm_ring.cpp:660); readers that opened the ring read-only without being counted are not modelled, so the claim is about readers that came through `create`.
- RingPromises.GenerationIsolation: `consumerGeneration` wraps at 2^32 as in the program, which is why a producer that stays open through 2^32 generations is the exception it states; the 64-bit sequence and frame counters do not wrap here.
- RingPromises.SurvivingClaimStays: the guard is always obtained in the end; `close` after a guard wait that failed, and guard time-outs, are not modelled.
- Protocol.QueuedUnitsAgree: one connection, from hello to close; units of an encoder session that was invalidated reach the main actor only while video is suspended (`Phone.MayArrive`), the consumer is never replaced, and the watchdog acts between sections.
- Protocol.NoFaultIsFound: every run starts with the phone's hello at the head of the channel; a `camera_state` that the user provokes before the transport is ready (ios/RemoteCam/Sources/App/AppModel.swift:130-138), which the PC would refuse, is outside it.
- MediaPath.NoHiddenGap: the consumer is the live pipeline throughout; a second thread draining after `setConsumer` could deliver an old unit after a reset.
- Delivery.AcceptedIffNext: MAC and AEAD are parameters, and a tag that verifies is taken to be the sender's own (`NotForged`); whether the session has expired is an input.
- Coverage.FillNeverShowsAnEdge: real arithmetic; an angle is any pair (c, s) with c^2 + s^2 = 1, rounding and non-finite parameters are left out.
- Recorder.FramesAreConserved: `start` is one step, so a frame enqueued between marking the recorder active and replacing its snapshot (windows/platform/src/mp4_recorder.cpp:158-171), which would lose a count, is not in it.
- RingCalls.CreateAlone: what a call leaves behind is stated for a holder of the guard that is left alone to its end; what holds between its stores, and when it dies among them, is in `RingPromises`.
- ProtocolPromises.FormatChangeCompletes: a run in which each step comes when it can; that the scheduler lets it come is not part of the model, and neither is a time-out.
- KeyUse.NoPairRecursIff: that the keys of a session differ is its premise; they are derived by HKDF under different labels, which is not part of this model.
- PhonePromises.SupersededTaskIsSilent: a start that has begun to wait for the live activity has no check left in the code (ios/RemoteCam/Sources/App/AppModel.swift:181-188), so it announces the stream and resumes video even if a change has been ordered meanwhile; the PC asks for none before the announcement.
- Capabilities.SortFormats: sorts by insertion; `std::sort` is known only by its result, which `OneOrder` shows to be unique.
- Controller.SessionController.HandleHello: the trust policy and the store of paired devices are inputs; the sends that follow may fail, which is a failure step of the state machine.

Not modelled, and why:

- Memory orders weaker than sequential consistency, and `memcpy` in an order other than by address.
- The ring's `width`, `height`, `stride`, `formatGeneration`, `lastWriteQpc` and requested geometry, the frame event, and the staleness clock: nothing that is proved depends on them. `magic` stands for all layout fields.
- Fairness: a reader that is overtaken eight times gives up; that it ever succeeds under load is not claimed. Nor are successive reads monotone.
- Concurrent `setConsumer`, reconnects of the phone, and the watchdog firing inside a handler.
- Metrics, timers and time-outs: a time-out is a step that may happen whenever its section may run.
- Contents of capability, telemetry, camera and statistics messages in the session model; there they only tell.
- The phone's authentication, which the phone does not send yet; the PC's side of it is one message with a verdict.
- OpenSSL, SPAKE2, scrypt and DPAPI: primitives, or parameters here.
- The value of a half or single precision real once widened, beyond fitting 64 bits; NaN payloads are not claimed to survive, and the encoder emits binary64 only.
- Equality of the Swift and C++ decoders: they compare keys and look for duplicates differently.
- The placeholder pattern, colour conversion and the choice between them in the virtual camera.
- Files, devices, sockets, discovery, the UI, option parsing, the bitrate controller, message builders with single fields: plumbing, or easy members.

Where the source's words and its code part, the model follows the code:

- The ring's header promises that a dead producer's claim is reclaimed automatically, and a comment says that a start time of 0 never matches a live claim (windows/common/src/shm_ring.cpp:129-130); in the code a claim without a start time counts as live whenever anybody runs under its pid, and a dead owner that left exit code 259 counts as running for as long as somebody holds on to it.
- A comment calls CBOR decoding more permissive about heads than encoding (core/src/cbor.cpp:29-30); the code refuses heads that are not the shortest.
- A comment says that a stream which does not begin with a start code is not Annex-B (core/src/annexb.cpp:50-51); the code skips what precedes the first one.
