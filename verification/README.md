# Envoix protocol cores in Dafny

Envoix moves files between phones and computers. Its apps pair devices over Bluetooth, NFC and Wi-Fi Aware, share leases
on the radio, keep remembered credentials in step, and stage shared files for sending. This project models the protocol
and state-machine cores behind that and proves what they promise, for every input, every interleaving or every reachable
state. `dafny verify dfyconfig.toml` checks all of it.

An actor turn, a section under a lock or a main-actor section without suspension is one atomic step; what a task does
after it suspends is a later step. A component that the source updates in place is a class whose methods are proved equal
to a pure step function on a snapshot of its fields; the run-level theorems are about that step function.

| file | component |
|---|---|
| `LeaseScheduler.dfy` | the Wi-Fi Aware lease queue: per-role FIFO, maximal grants, bounded waiting |
| `BleRendezvous.dfy` | Bluetooth invitations: envelope, fragments, the resynchronising assembler |
| `NfcCarrier.dfy`, `NfcRead.dfy` | the NFC carrier link, the single-record envelope, the chunked reader |
| `ControlRole.dfy`, `PeerRoutes.dfy` | control roles of two peers; identity, channel and route tables |
| `RememberedGenerations.dfy` | remembered credentials: rotation, crashes and the offset retry schedules |
| `DatagramInbox.dfy`, `ResponseWaiters.dfy` | back-pressured inbox; response waiters and the retry loop |
| `RoomCommands.dfy` | the room command queue with a close that can be refused |
| `StagingLifecycle.dfy`, `ShareDraftFiles.dfy` | share-draft staging under a racing cancel; names, staging and loading |
| `AttemptLimiter.dfy` | the sliding-window limiter for Bluetooth identity reads |
| `OfferDecisions.dfy` | outgoing offers and their decision callbacks in a one-time room |
| `MatrixPlan.dfy` | the test-matrix planner, its independent checker and the aggregator |
| `Text.dfy`, `Prelude.dfy` | text, UTF-8, fixed-width numbers; optional values and results |

Some promises turn out to hold only under a condition; each has a lemma with the failing case and one with the exact
condition:

- A room reopened by a refused close stays closed when the close is refused between its caller's send and store
  (`ReopeningCanBeLost`, `IdleRoomAcceptsIff`).
- A staged draft whose byte total exceeds 64 bits is written but never loads (`HugeDraftDoesNotLoad`, `StageThenLoad`).
- A cancelled session with no operation in flight still has its directory exactly while a thread owes its first removal
  (`CleanupOutlivesTheFlag`, `LifecycleSafety`), and its cleanup can take another draft's fresh pending file with it
  (`ForeignPendingCanBeLost`, `ForeignPendingKeptIff`).
- Role recovery without a live role leaves a wrong stored hint in place (`WrongHintSurvivesRecovery`, `RecoverySettles`),
  and equal hints split the verdict (`EqualHintsDisagree`, `SameVerdictIffComplementary`).
- At the last 64-bit generation the schedules agree on paper, but a side gives up before its first attempt
  (`LastGenerationNeverMeets`, `SideBySideMeetsIff`, `MeetingIsReached`).
- The limiter's limits can be broken by some peers exactly when a call time relapses (`BackwardClockBreaksTheLimit`,
  `RespectedIffNoRelapse`); the app's uptime clock never does (`SteadyTimesHaveNoRelapse`).
- A late cancellation could reach a stranger only after 2^64 receive calls (`LateCancelHitsAfterWrap`,
  `LateCancelIsHarmless`).
- A dry run without records is reported as invalid rather than missing records (`MissingRecordCode`).

## Model

| member | source | states |
|---|---|---|
| LeaseScheduler.ScanAccumulates | apps/envoix-apple/Sources/AppleWifiAwareServiceCoordinator.swift:127-156 | While scanning, the roles in use plus the roles reserved by the waiters kept so far are exactly the roles of the leases before the pass and of every request scanned, whatever was granted and removed on the way |
| LeaseScheduler.ScanDecides | apps/envoix-apple/Sources/AppleWifiAwareServiceCoordinator.swift:127-156 | The loop's test grants a waiter exactly when it conflicts with no lease and no earlier waiter of the original queue |
| LeaseScheduler.Coordinator.GrantEligibleWaiters | apps/envoix-apple/Sources/AppleWifiAwareServiceCoordinator.swift:127-156 | The loop that removes from the queue while it walks over it leaves exactly the blocked requests, in order, and leases for exactly the others |
| LeaseScheduler.Coordinator.Request | apps/envoix-apple/Sources/AppleWifiAwareServiceCoordinator.swift:59-92 | Queues a request and runs a grant pass; exclusion, FIFO order and maximality hold afterwards, and who may run beside whom is fixed by PurposesInEveryRun and RequestIsDecidedByPurposes |
| LeaseScheduler.Coordinator.CancelPending | apps/envoix-apple/Sources/AppleWifiAwareServiceCoordinator.swift:105-115 | Withdraws a waiting request, ignores any other token, and keeps the invariant |
| LeaseScheduler.Coordinator.ReleaseToken | apps/envoix-apple/Sources/AppleWifiAwareServiceCoordinator.swift:117-125 | Ends a lease, ignores any other token, and keeps the invariant |
| LeaseScheduler.PassConservesTokens | apps/envoix-apple/Sources/AppleWifiAwareServiceCoordinator.swift:127-156 | A grant pass neither loses nor invents a request; what leaves the queue holds a lease |
| LeaseScheduler.StepKeepsInv | apps/envoix-apple/Sources/AppleWifiAwareServiceCoordinator.swift:59-156 | Every turn keeps: leases have disjoint roles, a lease that shares a role with a waiter arrived first, every waiter is held back by a lease or an earlier waiter |
| LeaseScheduler.ReachableStatesAreSafe | apps/envoix-apple/Sources/AppleWifiAwareServiceCoordinator.swift:59-156 | These hold in every state of every run, and with no lease there is no queue |
| LeaseScheduler.StepAhead | apps/envoix-apple/Sources/AppleWifiAwareServiceCoordinator.swift:59-156 | No event puts a request ahead of a waiter; retiring one that is ahead removes exactly that one |
| LeaseScheduler.LineShortens | apps/envoix-apple/Sources/AppleWifiAwareServiceCoordinator.swift:59-156 | While a request waits, the requests ahead of it at the end plus those retired during the run are those ahead at the start, and the line is never empty |
| LeaseScheduler.NeverWaitsAgain | apps/envoix-apple/Sources/AppleWifiAwareServiceCoordinator.swift:59-156 | A request that left the queue never waits again |
| LeaseScheduler.LeavesByGrant | apps/envoix-apple/Sources/AppleWifiAwareServiceCoordinator.swift:59-156 | A request that leaves the queue without being cancelled holds its lease at some point of the run |
| LeaseScheduler.BoundedWaiting | apps/envoix-apple/Sources/AppleWifiAwareServiceCoordinator.swift:59-156 | A request that is not cancelled is granted in every run in which as many requests ahead of it retire as were ahead of it at the start |
| LeaseScheduler.DisjointIffTogether | apps/envoix-apple/Sources/AppleWifiAwareServiceCoordinator.swift:28-38 | Two purposes claim no common role exactly when one is a transfer receiver and the other a transfer sender |
| LeaseScheduler.PurposesInEveryRun | apps/envoix-apple/Sources/AppleWifiAwareServiceCoordinator.swift:59-156 | In every state of every run a control, diagnostic or system-pairing lease is the only one, two leases are one receiver and one sender, and every waiter cannot run together with some lease or earlier waiter |
| LeaseScheduler.RequestIsDecidedByPurposes | apps/envoix-apple/Sources/AppleWifiAwareServiceCoordinator.swift:59-92 | With an empty queue a request is granted at once exactly when its purpose can run together with every lease, so a sender beside a lone receiver and the reverse; otherwise it waits alone |
| BleRendezvous.FittingClustersIsLongest | apps/envoix-apple/Sources/BleRendezvousProtocol.swift:260-268 | The bounded display name is the longest run of whole leading characters that fits |
| BleRendezvous.BoundedUtf8 | apps/envoix-apple/Sources/BleRendezvousProtocol.swift:260-268 | The character loop returns the UTF-8 of that run, within the byte limit |
| BleRendezvous.CutFrames | apps/envoix-apple/Sources/BleRendezvousProtocol.swift:129-144 | The offset loop cuts the payload into its fragments, none larger than the frame size |
| BleRendezvous.BuildPayload | apps/envoix-apple/Sources/BleRendezvousProtocol.swift:100-128 | The sealed envelope, or nothing when key, offer or sizes are refused |
| BleRendezvous.EncodeInvite | apps/envoix-apple/Sources/BleRendezvousProtocol.swift:100-144 | Frames exactly when the payload is built and the frame size exceeds the header; each frame fits |
| BleRendezvous.Assembler.Reset | apps/envoix-apple/Sources/BleRendezvousProtocol.swift:196-201 | Back to idle |
| BleRendezvous.Assembler.AcceptFrame | apps/envoix-apple/Sources/BleRendezvousProtocol.swift:157-194 | One frame: restart at offset zero, continue only in step, otherwise reset; the answer on completion |
| BleRendezvous.FrameRoundTrip | apps/envoix-apple/Sources/BleRendezvousProtocol.swift:133-175 | A frame parses back to its own id, total, offset and chunk; the 16-bit fields never overflow |
| BleRendezvous.EnvelopeRoundTrip | apps/envoix-apple/Sources/BleRendezvousProtocol.swift:203-233 | The envelope of a normalised key, a bounded name and an offer decodes to them |
| BleRendezvous.PayloadRoundTrip | apps/envoix-apple/Sources/BleRendezvousProtocol.swift:100-128 | Whenever the encoder yields a payload, completing it gives the normalised key, the id, the sanitised bounded name and the trimmed invitation |
| BleRendezvous.FragmentsReassemble | apps/envoix-apple/Sources/BleRendezvousProtocol.swift:129-201 | From any state at offset zero, and from the matching state later, the remaining frames are answered with silence until the last |
| BleRendezvous.InviteRoundTrip | apps/envoix-apple/Sources/BleRendezvousProtocol.swift:100-233 | From any assembler state the frames of an invitation give nothing until the last one, then exactly what was sent, and leave the assembler idle |
| BleRendezvous.AssemblerRoundTrip | apps/envoix-apple/Sources/BleRendezvousProtocol.swift:100-233 | The same for the assembler as written |
| BleRendezvous.InsecureIsLawful | apps/envoix-apple/Sources/BleRendezvousProtocol.swift:12-18 | The shipped protection opens what it seals, so the round trip is unconditional for it |
| BleRendezvous.AcceptHoldsTail | apps/envoix-apple/Sources/BleRendezvousProtocol.swift:157-201 | Whatever the assembler holds was tiled by the most recent frames |
| BleRendezvous.InviteOnlyFromTiledFrames | apps/envoix-apple/Sources/BleRendezvousProtocol.swift:157-201 | An assembler that started idle answers only when its most recent frames tile one whole message, and with the decoding of exactly those bytes |
| BleRendezvous.EncoderYieldsIff | apps/envoix-apple/Sources/BleRendezvousProtocol.swift:100-128 | A payload is yielded if and only if the trimmed key is 64 hexadecimal digits, the trimmed invitation is acceptable and in size, and the sealed envelope fits in 4096 bytes |
| BleRendezvous.ShippedEncoderYieldsIff | apps/envoix-apple/Sources/BleRendezvousProtocol.swift:12-128 | With the shipped protection the size of the sealed envelope never stands in the way |
| NfcCarrier.Base64RoundTrip | apps/envoix-apple/Sources/NFCInvitationExchange.swift:146-187 | Decoding standard base64 gives the octets back |
| NfcCarrier.Base64UrlRoundTrip | apps/envoix-apple/Sources/NFCInvitationExchange.swift:146-187 | Undoing the URL alphabet and the missing padding and decoding gives the octets back; length and alphabet are as the decoder's guards expect |
| NfcCarrier.CarrierRoundTrip | apps/envoix-apple/Sources/NFCInvitationExchange.swift:115-187 | Every valid invitation up to 8211 bytes is returned from its carrier link; no guard rejects it |
| NfcCarrier.CarrierIsCanonical | apps/envoix-apple/Sources/NFCInvitationExchange.swift:124-162 | Every link the decoder accepts is the link of what it returns |
| NfcCarrier.CarrierBijection | apps/envoix-apple/Sources/NFCInvitationExchange.swift:115-162 | A link decodes to an invitation if and only if it is that invitation's link |
| NfcCarrier.DecoderAloneIsNotCanonical | apps/envoix-apple/Sources/NFCInvitationExchange.swift:146-157 | Without the re-encoding test two spellings would decode alike |
| NfcCarrier.MessageRoundTrip | apps/envoix-apple/Sources/NFCInvitationExchange.swift:53-95 | The message written for an invitation reads back as that invitation |
| NfcCarrier.RecordAccepts | apps/envoix-apple/Sources/NFCInvitationExchange.swift:71-95 | Only a valid invitation, bare or in its one carrier link, is taken from a record |
| NfcCarrier.UrlAlphabet | apps/envoix-apple/Sources/NFCInvitationExchange.swift:182-187 | The URL form differs from the standard one in digits 62 and 63 only |
| NfcCarrier.StandardVectors | apps/envoix-apple/Sources/NFCInvitationExchange.swift:182-187 | The encoder agrees with the vectors of section 10 of RFC 4648 for one, two and three octets |
| NfcRead.RequestsTile | apps/envoix-apple/Sources/NFCInvitationExchange.swift:268-284 | The commands of a read tile bytes 2 to 2 + length without gap or overlap, and READ BINARY refuses none of them |
| NfcRead.ReadChunks | apps/envoix-apple/Sources/NFCInvitationExchange.swift:618-668 | The chunk loop ends with exactly the announced number of bytes or the first failed response; the command builder never fails |
| NfcRead.HonestRead | apps/envoix-apple/Sources/NFCInvitationExchange.swift:618-668 | Reading a served file returns exactly its bytes after the length field |
| NfcRead.ValidateEnvelope | apps/envoix-apple/Sources/NFCInvitationExchange.swift:332-394 | The cursor walk accepts exactly the data whose announced lengths account for every byte |
| NfcRead.AcceptedIsSerialized | apps/envoix-apple/Sources/NFCInvitationExchange.swift:332-394 | Accepted data is the serialisation of the record its fields describe |
| NfcRead.SerializedIsAccepted | apps/envoix-apple/Sources/NFCInvitationExchange.swift:332-394 | Every representable record is accepted and its fields come back |
| NfcRead.EnvelopeExact | apps/envoix-apple/Sources/NFCInvitationExchange.swift:332-394 | The check accepts exactly the serialised single records |
| NfcRead.PresentedInvitationIsRead | apps/envoix-apple/Sources/NFCInvitationExchange.swift:557-668 | A phone serving any valid invitation is read back as exactly that invitation |
| NfcRead.ReadBinarySays | apps/envoix-apple/Sources/NFCInvitationExchange.swift:268-284 | A READ BINARY command is the ISO 7816 header with the big-endian offset and the length asked for |
| NfcRead.EveryFileCanBeServed | apps/envoix-apple/Sources/NFCInvitationExchange.swift:268-284 | For every file there is a responder that serves it, so the reading theorems apply to every file |
| ControlRole.LessIsStrictTotal | apps/envoix-apple/Sources/AppleWifiAwareControlState.swift:7-17 | Of two different keys exactly one is smaller |
| ControlRole.CanonicalRolesAreComplementary | apps/envoix-apple/Sources/AppleWifiAwareControlState.swift:7-17 | Two different keys give opposite roles; the smaller one subscribes |
| ControlRole.ControlRoleState.Recover | apps/envoix-apple/Sources/AppleWifiAwareControlState.swift:75-80 | Recovery drops the role only without a ready channel, and says whether it did |
| ControlRole.ControlRoleState.AuthenticateChannel | apps/envoix-apple/Sources/AppleWifiAwareControlState.swift:82-105 | A channel is accepted exactly when its direction fits the role in force; an absent role is filled in |
| ControlRole.ControlRoleState.Closed | apps/envoix-apple/Sources/AppleWifiAwareControlState.swift:107-111 | The phase after a close depends on whether a ready channel is left |
| ControlRole.SettledIsStable | apps/envoix-apple/Sources/AppleWifiAwareControlState.swift:74-111 | Once a side's live and stored roles are absent or canonical, every authentication, recovery, close, reload and right hint keeps them so |
| ControlRole.RecoverySettles | apps/envoix-apple/Sources/AppleWifiAwarePairingProvider.swift:979-996 | One recovery settles a side if and only if its live role was present or its stored hint harmless |
| ControlRole.WrongHintSurvivesRecovery | apps/envoix-apple/Sources/AppleWifiAwarePairingProvider.swift:2620-2626 | The case that fails, for all keys: a wrong hint stored after a device was listed survives recovery; reloading first and then recovering settles the side |
| ControlRole.SameVerdictIffComplementary | apps/envoix-apple/Sources/AppleWifiAwareControlState.swift:82-105 | The two ends of a channel give the same verdict if and only if the roles they apply are complementary |
| ControlRole.EqualHintsDisagree | apps/envoix-apple/Sources/AppleWifiAwareControlState.swift:82-105 | Two equal wrong hints split the verdict |
| ControlRole.SettledRuns | apps/envoix-apple/Sources/AppleWifiAwarePairingProvider.swift:1669-1723 | Settled sides stay settled over every run of either side's steps in which no wrong hint is written |
| ControlRole.RunsConverge | apps/envoix-apple/Sources/AppleWifiAwarePairingProvider.swift:1669-1723 | After any run without a wrong hint both ends accept exactly the channels opened by the smaller key, with complementary roles |
| PeerRoutes.RegisterWellFiled | apps/envoix-apple/Sources/AppleWifiAwareControlChannelRegistry.swift:42-54 | Registering keeps one channel per direction and every channel under its own device and id |
| PeerRoutes.BindKeepsTables | apps/envoix-apple/Sources/AppleWifiAwarePairingProvider.swift:1970-2040 | Binding an identity keeps non-conflicted devices' keys pairwise distinct; a clash conflicts every device involved |
| PeerRoutes.ReconcileKeepsTables | apps/envoix-apple/Sources/AppleWifiAwarePairingProvider.swift:1961-1968 | Re-reading the identity from the selected channel keeps the tables in order |
| PeerRoutes.AdmitKeepsTables | apps/envoix-apple/Sources/AppleWifiAwarePairingProvider.swift:1644-1723 | Admitting a channel keeps the tables in order whichever guard refuses it |
| PeerRoutes.RegisterChannelKeepsTables | apps/envoix-apple/Sources/AppleWifiAwarePairingProvider.swift:1644-1746 | Registering a channel keeps: distinct keys, ready channels carry the bound key, one channel per direction |
| PeerRoutes.CloseKeepsTables | apps/envoix-apple/Sources/AppleWifiAwarePairingProvider.swift:1824-1870 | Closing a channel keeps the tables in order |
| PeerRoutes.StepKeepsTables | apps/envoix-apple/Sources/AppleWifiAwarePairingProvider.swift:600-2079 | Every atomic step of the provider keeps the tables in order |
| PeerRoutes.OneClaim | apps/envoix-apple/Sources/AppleWifiAwarePairingProvider.swift:2042-2079 | At most one eligible device claims a peer key |
| PeerRoutes.RoutesAreExact | apps/envoix-apple/Sources/AppleWifiAwarePairingProvider.swift:2042-2079 | Published routes lead each peer key to the one non-conflicted device bound to it, so they are injective |
| PeerRoutes.QuietStepsKeepRoutes | apps/envoix-apple/Sources/AppleWifiAwarePairingProvider.swift:656-758 | The steps that do not publish leave the routes what a publication would give |
| PeerRoutes.SessionStepKeepsInv | apps/envoix-apple/Sources/AppleWifiAwarePairingProvider.swift:600-2079 | Tables in order and routes current after every step |
| PeerRoutes.EveryRunIsSafe | apps/envoix-apple/Sources/AppleWifiAwarePairingProvider.swift:600-2079 | Identity and route safety in every state of every run |
| PeerRoutes.LateCloseNeverTouchesReplacement | apps/envoix-apple/Sources/AppleWifiAwarePairingProvider.swift:1725-1870 | Registering a second channel of a direction takes the first out, and the first one's own close, after any run that does not open it again, changes nothing at all |
| PeerRoutes.RegisterRetires | apps/envoix-apple/Sources/AppleWifiAwareControlChannelRegistry.swift:42-54 | Registering hands back exactly the channel it replaces |
| PeerRoutes.Provider.BindIdentity | apps/envoix-apple/Sources/AppleWifiAwarePairingProvider.swift:1970-2020 | The dictionaries afterwards are those of the bind step |
| PeerRoutes.Provider.RejectPendingChannel | apps/envoix-apple/Sources/AppleWifiAwarePairingProvider.swift:1748-1758 | Likewise for rejecting a pending channel |
| PeerRoutes.Provider.JudgeChannelRole | apps/envoix-apple/Sources/AppleWifiAwarePairingProvider.swift:1669-1723 | Likewise for the role verdict, with its effect on role and stored hint |
| PeerRoutes.Provider.AdmitChannel | apps/envoix-apple/Sources/AppleWifiAwarePairingProvider.swift:1644-1723 | Likewise for admission, with the verdict |
| PeerRoutes.Provider.RegisterControlChannel | apps/envoix-apple/Sources/AppleWifiAwarePairingProvider.swift:1644-1746 | Likewise for registration, routes included |
| PeerRoutes.Provider.ReconcileIdentity | apps/envoix-apple/Sources/AppleWifiAwarePairingProvider.swift:1961-1968 | Likewise for reconciling one device's identity |
| PeerRoutes.Provider.ControlChannelClosed | apps/envoix-apple/Sources/AppleWifiAwarePairingProvider.swift:1850-1870 | Likewise for a close, routes included |
| PeerRoutes.Provider.GroupClaims | apps/envoix-apple/Sources/AppleWifiAwarePairingProvider.swift:2043-2055 | The loop over the paired devices builds the table of claimants of every claimed key |
| PeerRoutes.SingleClaims | apps/envoix-apple/Sources/AppleWifiAwarePairingProvider.swift:2058-2062 | The loop over the table keeps exactly the keys with one claimant |
| PeerRoutes.Provider.PublishRoutes | apps/envoix-apple/Sources/AppleWifiAwarePairingProvider.swift:2042-2067 | Grouping and filtering publish exactly the routes of the current tables |
| PeerRoutes.CloseTakesOutExactly | apps/envoix-apple/Sources/AppleWifiAwarePairingProvider.swift:1850-1870 | A close takes exactly that channel out and leaves every other channel of every device as it was; without another channel no published key leads to the device, with one a trusted device's key still does |
| PeerRoutes.RemoveIsExact | apps/envoix-apple/Sources/AppleWifiAwareControlChannelRegistry.swift:56-67 | Removing a channel leaves every other channel of every device, and not that one |
| PeerRoutes.AnnouncedChannelIsAcceptedIff | apps/envoix-apple/Sources/AppleWifiAwarePairingProvider.swift:1644-1746 | An announced channel is accepted if and only if device, key and direction allow it; accepted, it is filed and its key leads to the device, refused, nothing is filed; either way it is no longer pending |
| PeerRoutes.ClashUntrustsAll | apps/envoix-apple/Sources/AppleWifiAwarePairingProvider.swift:1970-2040 | A second device that presents a bound key puts both in conflict, and no published key leads to either |
| PeerRoutes.SelectPrefers | apps/envoix-apple/Sources/AppleWifiAwareControlChannelRegistry.swift:24-37 | The selected channel is the smallest of the preferred direction, and otherwise the smallest of all |
| RememberedGenerations.RunSchedule | apps/envoix-android-jni/src/manifest_v2.rs:1578-1614 | The retry loop tries the generations in order; a succeeded, authenticated or cancelled attempt is the last one made and decides the result; without one it tries the whole schedule or is exhausted at the last generation |
| RememberedGenerations.CrashesKeepInStep | apps/envoix-android-jni/src/manifest_v2.rs:254-280 | Over every run in which either side may crash before persisting, the two current generations differ by at most one and never decrease |
| RememberedGenerations.RendezvousIffInStep | apps/envoix-android-jni/src/manifest_v2.rs:1578-1636 | The offset schedules share a generation at a common index if and only if the two currents are within one of each other; that index carries the smaller current |
| RememberedGenerations.MeetingIsReached | apps/envoix-android-jni/src/manifest_v2.rs:1566-1683 | For all outcomes in which nothing before the meeting stops a loop and the meeting does, both loops end at the meeting with the shared generation if and only if neither current is the last generation; a loop is exhausted exactly when its own current is |
| RememberedGenerations.WalkReaches | apps/envoix-android-jni/src/manifest_v2.rs:1584-1614 | A loop none of whose earlier attempts stops it comes to attempt m, or is exhausted if an earlier entry is the last generation |
| RememberedGenerations.SideBySideMeetsIff | apps/envoix-android-jni/src/manifest_v2.rs:1566-1683 | For all well-formed credentials the two loops run side by side meet if and only if the currents are within one of each other and neither is the last generation; they then meet at the smaller current |
| RememberedGenerations.LastGenerationNeverMeets | apps/envoix-android-jni/src/manifest_v2.rs:1585-1587 | The case that fails: at the last generation the schedules agree on paper and a side gives up before the first attempt |
| RememberedGenerations.RememberedPairsStayInStep | apps/envoix-android-jni/src/manifest_v2.rs:254-280 | From the moment both sides first remember each other, every run keeps them in step |
| RememberedGenerations.MeetingHeals | apps/envoix-android-jni/src/manifest_v2.rs:1566-1683 | A meeting that both sides persist brings them to the same credential: the next generation, with the shared one as its predecessor |
| DatagramInbox.Inbox.DeliverDatagram | apps/envoix-apple/Sources/AppleWifiAwareTransport.swift:1317-1340 | Hands over to a waiter, queues, or suspends when the queue is full |
| DatagramInbox.Inbox.FinishInbox | apps/envoix-apple/Sources/AppleWifiAwareTransport.swift:1342-1354 | Fails the waiter, drops the suspended delivery, once |
| DatagramInbox.Inbox.ReceiveDatagram | apps/envoix-apple/Sources/AppleWifiAwareTransport.swift:1356-1390 | Takes from the queue and resumes the suspended delivery, or fails, or suspends |
| DatagramInbox.Inbox.CancelSuspended | apps/envoix-apple/Sources/AppleWifiAwareTransport.swift:1392-1396 | Cancels the waiter with that id only |
| DatagramInbox.StepConserves | apps/envoix-apple/Sources/AppleWifiAwareTransport.swift:1296-1417 | One step neither loses, invents nor reorders a datagram, except that finishing may lose the suspended one |
| DatagramInbox.InboxConserves | apps/envoix-apple/Sources/AppleWifiAwareTransport.swift:1296-1417 | Over every run: consumed, then the queue, then the suspended delivery, then what was lost is exactly what was accepted, in order; at most one is lost, and only by finishing |
| DatagramInbox.NothingAfterFinish | apps/envoix-apple/Sources/AppleWifiAwareTransport.swift:1317-1354 | After finishing nothing is accepted and nothing lost |
| DatagramInbox.EveryReceiveAnsweredOnce | apps/envoix-apple/Sources/AppleWifiAwareTransport.swift:1356-1408 | Answers given plus the one suspended receiver are the receive calls made |
| DatagramInbox.LateCancelIsHarmless | apps/envoix-apple/Sources/AppleWifiAwareTransport.swift:1371-1396 | Once a waiter has been answered, cancelling it is without effect in every run with fewer than 2^64 receive calls since its id was given out |
| DatagramInbox.LateCancelHitsAfterWrap | apps/envoix-apple/Sources/AppleWifiAwareTransport.swift:1371-1396 | The bound is exact: the next receive call after the counter has wrapped can be hit |
| DatagramInbox.NothingIsLostFromTheStart | apps/envoix-apple/Sources/AppleWifiAwareTransport.swift:1296-1417 | From an empty inbox everything accepted is consumed, still held, or the one lost by finishing |
| DatagramInbox.StepAnswersWithWhatItTakes | apps/envoix-apple/Sources/AppleWifiAwareTransport.swift:1317-1390 | A step that takes a datagram answers the receiver with exactly that datagram if it fits the receiver's bound and with a bound error otherwise; any other answer is an error |
| DatagramInbox.ReceiversGetWhatFits | apps/envoix-apple/Sources/AppleWifiAwareTransport.swift:1317-1390 | Over every run the datagrams received are exactly the consumed ones that fit their receiver's bound, in order |
| DatagramInbox.ErrorsSayWhy | apps/envoix-apple/Sources/AppleWifiAwareTransport.swift:1342-1390 | Which error a receiver gets: the reason of the finish, a concurrent receive, a cancellation |
| AttemptLimiter.Limiter.TryAcquireAt | apps/envoix-apple/Sources/AppleBluetoothDiscoveryProvider.swift:33-50 | Prunes, tests and appends in one pass |
| AttemptLimiter.GrantRespectsIff | apps/envoix-apple/Sources/AppleBluetoothDiscoveryProvider.swift:33-50 | One more grant keeps every window and every backoff if and only if the remembered attempts leave room and none is too recent |
| AttemptLimiter.CallIsExact | apps/envoix-apple/Sources/AppleBluetoothDiscoveryProvider.swift:33-50 | A call is granted if and only if granting it on top of all grants so far respects the limits, although only one window is remembered |
| AttemptLimiter.LimiterIsExact | apps/envoix-apple/Sources/AppleBluetoothDiscoveryProvider.swift:33-50 | Over every run at non-decreasing times all limits hold for all grants together, wherever a window starts, and a refusal happens only when granting would break one |
| AttemptLimiter.RespectedIffNoRelapse | apps/envoix-apple/Sources/AppleBluetoothDiscoveryProvider.swift:33-50 | For every sequence of call times: the limits hold for all choices of peers, maximum and backoff if and only if no call comes back to within a window of an earlier one after a call a window later |
| AttemptLimiter.SteadyTimesHaveNoRelapse | apps/envoix-apple/Sources/AppleBluetoothDiscoveryProvider.swift:33-50 | Times that never decrease, as the caller's uptime clock gives, meet that condition |
| AttemptLimiter.BackwardClockBreaksTheLimit | apps/envoix-apple/Sources/AppleBluetoothDiscoveryProvider.swift:33-50 | The case that fails: a concrete run with a relapse exceeds the window limit |
| RoomCommands.CloseReasonRoundTrip | apps/envoix-android-jni/src/room_control.rs:761-784 | Wire names and parser of the close reasons are inverse |
| RoomCommands.StepKeepsInv | apps/envoix-android-jni/src/room_control.rs:328-445 | Every step of callers and worker keeps the order of commands and the exact meaning of the two flags |
| RoomCommands.FifoSafety | apps/envoix-android-jni/src/room_control.rs:328-445 | In every interleaving the executed commands are a prefix of the accepted ones, a valid close that has not settled is the last accepted command, the unreachable arm is not reached, and an ended room has executed everything and said so exactly once, last |
| RoomCommands.ReportIsTame | apps/envoix-android-jni/src/room_control.rs:384-419 | No command reaches the unreachable arm; only a valid close that is not refused reports the end |
| RoomCommands.EndIsForever | apps/envoix-android-jni/src/room_control.rs:372-391 | After the end no run accepts or executes anything |
| RoomCommands.RefusedCloseLosesNothing | apps/envoix-android-jni/src/room_control.rs:431-445 | When a close is refused everything accepted has been executed and the queue takes the next command |
| RoomCommands.IdleRoomAcceptsIff | apps/envoix-android-jni/src/room_control.rs:328-445 | An idle, connected, unended room takes commands if and only if no close was ever refused before its own caller had stored |
| RoomCommands.ReopeningCanBeLost | apps/envoix-android-jni/src/room_control.rs:340-345 | A run in which that store overwrites the reopening |
| RoomCommands.LostReopeningIsForever | apps/envoix-android-jni/src/room_control.rs:328-445 | After it no run accepts a command |
| RoomCommands.DrainExecutesAll | apps/envoix-android-jni/src/room_control.rs:358-421 | With nobody enqueueing the worker loop leaves no accepted command unexecuted, whatever the session answers |
| RoomCommands.Room.EnqueueRoomCommand | apps/envoix-android-jni/src/room_control.rs:328-347 | Refuses or accepts as the flags say; a valid close stops further commands |
| RoomCommands.Room.SettleCloseResult | apps/envoix-android-jni/src/room_control.rs:431-445 | Reopens exactly when the session refused the close as bad input |
| RoomCommands.Room.RunCommandFifo | apps/envoix-android-jni/src/room_control.rs:349-421 | The loop executes the whole queue and agrees with the step machine |
| RoomCommands.ReportSays | apps/envoix-android-jni/src/room_control.rs:384-586 | Which session answer gives which notice: closed with the reason parsed, failed, command failed, the answer sent for that offer, the new lifetime |
| ResponseWaiters.ChannelState.Register | apps/envoix-apple/Sources/AppleWifiAwareRendezvousChannel.swift:140-178 | Registers under a free key of an open channel, otherwise fails and changes nothing |
| ResponseWaiters.ChannelState.RouteIncoming | apps/envoix-apple/Sources/AppleWifiAwareRendezvousChannel.swift:180-208 | Requests pass through; an acknowledgement resolves its waiter once, with an error when the peer changed; others are ignored |
| ResponseWaiters.ChannelState.Finish | apps/envoix-apple/Sources/AppleWifiAwareRendezvousChannel.swift:224-263 | The common tail of abandoning, expiring and cancelling |
| ResponseWaiters.ChannelState.Close | apps/envoix-apple/Sources/AppleWifiAwareRendezvousChannel.swift:234-246 | Tells every pending waiter, whatever the order, and is final |
| ResponseWaiters.StepKeepsInv | apps/envoix-apple/Sources/AppleWifiAwareRendezvousChannel.swift:140-263 | Every step of senders, timers, cancellations, messages and close keeps the waiter accounting |
| ResponseWaiters.EveryWaiterToldOnce | apps/envoix-apple/Sources/AppleWifiAwareRendezvousChannel.swift:140-263 | In every interleaving a registered waiter is told at most one thing, and exactly one once it is no longer pending or the channel is closed |
| ResponseWaiters.RequestsEndFairly | apps/envoix-apple/Sources/AppleWifiAwareRendezvousChannel.swift:492-522 | With distinct keys no request ends with a collision; success means a genuine acknowledgement, a timeout three attempts; after the close nobody waits without an answer |
| ResponseWaiters.ReadyIsFree | apps/envoix-apple/Sources/AppleWifiAwareRendezvousChannel.swift:492-522 | A retry finds its key free: it never collides with its own earlier attempt |
| ResponseWaiters.TimerReachesOnlyItsWaiter | apps/envoix-apple/Sources/AppleWifiAwareRendezvousChannel.swift:156-163 | A timer, even one that fires after being cancelled, reaches its own waiter or nobody |
| ResponseWaiters.NothingRegistersAfterClose | apps/envoix-apple/Sources/AppleWifiAwareRendezvousChannel.swift:140-178 | After the close nothing registers, in any run |
| ResponseWaiters.EqualKeysCollide | apps/envoix-apple/Sources/AppleWifiAwareRendezvousChannel.swift:147-150 | Two requests with equal keys do collide |
| ResponseWaiters.AcknowledgementIsDelivered | apps/envoix-apple/Sources/AppleWifiAwareRendezvousChannel.swift:180-208 | An acknowledgement for a pending key tells exactly its waiter, once: the message if it comes from the expected peer, a changed identity otherwise; any other message changes nothing |
| ResponseWaiters.GenuineAnswerReachesItsCaller | apps/envoix-apple/Sources/AppleWifiAwareRendezvousChannel.swift:180-522 | After a genuine acknowledgement, whatever else happens, the sender still waiting on it and not cancelled ends with exactly that message |
| ResponseWaiters.ConsumedAnswerIsReturned | apps/envoix-apple/Sources/AppleWifiAwareRendezvousChannel.swift:492-522 | What a sender does with what its waiter was told: returns a message unless cancelled, retries a timeout up to three attempts, returns any other error |
| ResponseWaiters.TimerTells | apps/envoix-apple/Sources/AppleWifiAwareRendezvousChannel.swift:248-255 | A timer tells its own waiter that it timed out, or nothing if that was told already |
| ResponseWaiters.OthersTell | apps/envoix-apple/Sources/AppleWifiAwareRendezvousChannel.swift:224-263 | What a cancellation, a failed send and a close tell the waiter of the key |
| StagingLifecycle.StepKeepsInv | apps/envoix-apple/Shared/ShareDraftStore.swift:751-928 | Every step of the operating thread, the cancelling thread and other sessions keeps the lifecycle invariant |
| StagingLifecycle.LifecycleSafety | apps/envoix-apple/Shared/ShareDraftStore.swift:751-928 | Success exactly when finalised, with exactly the expected items and its directory; a cancelled session with no operation in flight has its directory if and only if a thread still owes its first removal; one nobody works on is not named by the pending file; no cleanup runs under an operation in flight |
| StagingLifecycle.EndsAreForever | apps/envoix-apple/Shared/ShareDraftStore.swift:843-928 | Finalised and cancelled are exclusive and permanent; a finalised draft is never touched again by its session |
| StagingLifecycle.CleanupOutlivesTheFlag | apps/envoix-apple/Shared/ShareDraftStore.swift:863-876 | The case that fails: cancelled, no operation in flight, and the directory still there because its removal is owed |
| StagingLifecycle.CancelledWindsDown | apps/envoix-apple/Shared/ShareDraftStore.swift:863-928 | After a cancel each thread step brings the cleanup nearer and new calls change nothing |
| StagingLifecycle.CleanInTenSteps | apps/envoix-apple/Shared/ShareDraftStore.swift:863-928 | A cancelled session is clean after at most ten steps of its own threads |
| StagingLifecycle.ForeignPendingKeptIff | apps/envoix-apple/Shared/ShareDraftStore.swift:978-987 | Another session's pending file survives a cleanup step if and only if no removal was pending, as is always so in undisturbed runs |
| StagingLifecycle.ForeignPendingCanBeLost | apps/envoix-apple/Shared/ShareDraftStore.swift:978-987 | A full session has a run that ends with its cleanup about to remove a pending file that names the other draft, and the next step of its own thread does remove it |
| StagingLifecycle.StagingSession.BeginOperation | apps/envoix-apple/Shared/ShareDraftStore.swift:878-887 | Begins only when active, idle and not full; a refusal changes nothing |
| StagingLifecycle.StagingSession.BeginFinalization | apps/envoix-apple/Shared/ShareDraftStore.swift:908-917 | Begins only when active, idle and exactly full |
| StagingLifecycle.StagingSession.FinishAppendLocked | apps/envoix-apple/Shared/ShareDraftStore.swift:889-906 | Counts the item unless cancelled meanwhile |
| StagingLifecycle.StagingSession.SettleLocked | apps/envoix-apple/Shared/ShareDraftStore.swift:843-855 | Finalises unless cancelled meanwhile |
| StagingLifecycle.StagingSession.FailOperationLocked | apps/envoix-apple/Shared/ShareDraftStore.swift:919-928 | A failed operation cancels the session |
| StagingLifecycle.StagingSession.CancelLocked | apps/envoix-apple/Shared/ShareDraftStore.swift:863-876 | Cancels an active session once and cleans up itself only when nothing is in flight |
| StagingLifecycle.UndisturbedSessionSucceeds | apps/envoix-apple/Shared/ShareDraftStore.swift:751-861 | From every open session the calls for its missing items and the finalisation run through and end finalised, full and published |
| ShareDraftFiles.SafeFileNameFixes | apps/envoix-apple/Shared/ShareDraftStore.swift:949-955 | The cleaner's results are exactly its fixed points: trimmed single path components |
| ShareDraftFiles.SomeVariantIsFree | apps/envoix-apple/Shared/ShareDraftStore.swift:930-947 | With fewer than 10000 names in use one of the 10000 numbered variants is free, so the UUID name is out of reach |
| ShareDraftFiles.UniqueNameIsNew | apps/envoix-apple/Shared/ShareDraftStore.swift:930-947 | The chosen name is safe and normalises to something not in use |
| ShareDraftFiles.Session.UniqueFileName | apps/envoix-apple/Shared/ShareDraftStore.swift:930-947 | The loop tries the cleaned name, then the variants in order |
| ShareDraftFiles.Session.AppendItem | apps/envoix-apple/Shared/ShareDraftStore.swift:751-822 | The same errors in the same order; a success adds one described item and one file |
| ShareDraftFiles.AppendKeepsInv | apps/envoix-apple/Shared/ShareDraftStore.swift:751-822 | Every accepted item keeps names distinct, paths distinct and every item loadable |
| ShareDraftFiles.StagedPathIsContained | apps/envoix-apple/Shared/ShareDraftStore.swift:666-672 | A staged path stays inside the root and names exactly its payload file |
| ShareDraftFiles.CheckedByteCount | apps/envoix-apple/Shared/ShareDraftStore.swift:176-184 | The checked sum fails exactly when the total does not fit in 64 bits |
| ShareDraftFiles.LoadItems | apps/envoix-apple/Shared/ShareDraftStore.swift:379-410 | The item loop accepts exactly lists of loadable items with distinct normalised paths |
| ShareDraftFiles.Load | apps/envoix-apple/Shared/ShareDraftStore.swift:357-412 | Loading accepts exactly the drafts whose header, items and files are in order, and returns that descriptor and those files |
| ShareDraftFiles.StageThenLoad | apps/envoix-apple/Shared/ShareDraftStore.swift:326-412 | For every list of accepted items the finalised draft keeps what was shared, its names are fixed by the cleaner and distinct after normalising, and it loads if and only if its byte total fits in 64 bits |
| ShareDraftFiles.AppendAllOkIff | apps/envoix-apple/Shared/ShareDraftStore.swift:326-343 | A list of items is staged if and only if each is acceptable by itself; names never stand in the way |
| ShareDraftFiles.SessionStagesAndLoads | apps/envoix-apple/Shared/ShareDraftStore.swift:326-412 | The same for the session as written, which chooses its names itself |
| ShareDraftFiles.HugeDraftDoesNotLoad | apps/envoix-apple/Shared/ShareDraftStore.swift:176-184 | The case that fails: three acceptable files of the largest size are staged and then do not load |
| ShareDraftFiles.LowercaseIsLawful | apps/envoix-apple/Shared/ShareDraftStore.swift:957-959 | The laws assumed of the normaliser have a model |
| ShareDraftFiles.AcceptableIff | apps/envoix-apple/Shared/ShareDraftStore.swift:751-822 | An item is acceptable if and only if its type is not blank, its source is a readable regular file and no link, a known free space holds it, and its copy has the same size |
| ShareDraftFiles.RefusalSays | apps/envoix-apple/Shared/ShareDraftStore.swift:751-790 | Which error an item is refused with |
| ShareDraftFiles.SafeFileNameSays | apps/envoix-apple/Shared/ShareDraftStore.swift:949-955 | The cleaned name is the trimmed name with slashes replaced, or the fallback for an empty or dot name |
| ShareDraftFiles.UniqueNameSays | apps/envoix-apple/Shared/ShareDraftStore.swift:930-947 | A free name is kept; a taken one gets the smallest free number from 2 on |
| ShareDraftFiles.ContainedStaysInside | apps/envoix-apple/Shared/ShareDraftStore.swift:666-672 | A contained path is strictly below the root and has no empty or dot component |
| OfferDecisions.StepKeepsInv | apps/envoix-apple/Sources/ConnectionWorkflow.swift:977-1623 | Every main-actor section keeps the accounting of decision callbacks |
| OfferDecisions.EveryCallbackToldOnce | apps/envoix-apple/Sources/ConnectionWorkflow.swift:1143-1623 | In every run each callback is told at most one thing, and exactly one when control is not connected; at most one offer is outstanding, only while connected |
| OfferDecisions.YesMeansAccepted | apps/envoix-apple/Sources/ConnectionWorkflow.swift:1357-1360 | A callback told yes was told so because the peer accepted that offer on the connection it was made on |
| OfferDecisions.RunAdvances | apps/envoix-apple/Sources/ConnectionWorkflow.swift:1464-1470 | Generations never go back, and within a connection lifetime state changes only with a strictly larger revision |
| OfferDecisions.TasksOfAnEndedConnectionAreHarmless | apps/envoix-apple/Sources/ConnectionWorkflow.swift:1289-1328 | Nothing captured before a connection ended has any effect afterwards |
| OfferDecisions.DeferredFailureIsNotLost | apps/envoix-apple/Sources/ConnectionWorkflow.swift:1506-1553 | Over every run a failure reported during an idle expiry still waits for that expiry unless the connection has ended otherwise, and whichever way the expiry goes control is then over |
| OfferDecisions.ConnectionWorkflow.Offer | apps/envoix-apple/Sources/ConnectionWorkflow.swift:1143-1156 | Refused at once unless connected with nothing incoming and nothing outstanding |
| OfferDecisions.ConnectionWorkflow.HandleEvent | apps/envoix-apple/Sources/ConnectionWorkflow.swift:1327-1386 | The event handler agrees with the step machine |
| OfferDecisions.ConnectionWorkflow.EndConnection | apps/envoix-apple/Sources/ConnectionWorkflow.swift:1296-1316 | New generation, every waiting callback told no, nothing left of the connection |
| OfferDecisions.ConnectionWorkflow.RefuseOutgoing | apps/envoix-apple/Sources/ConnectionWorkflow.swift:1306-1307 | Tells every waiting callback no, whatever the dictionary order |
| OfferDecisions.ConnectionWorkflow.ControlFailed | apps/envoix-apple/Sources/ConnectionWorkflow.swift:1546-1553 | Deferred while an expiry is pending, otherwise a failure |
| OfferDecisions.ConnectionWorkflow.OfferFailed | apps/envoix-apple/Sources/ConnectionWorkflow.swift:1163-1167 | The offer is refused, then control fails or defers |
| OfferDecisions.ConnectionWorkflow.IdleExpiryRefused | apps/envoix-apple/Sources/ConnectionWorkflow.swift:1522-1541 | Applies the newer state and then the deferred failure |
| OfferDecisions.ConnectionWorkflow.Apply | apps/envoix-apple/Sources/ConnectionWorkflow.swift:1464-1470 | Only a larger revision on a live connection counts |
| OfferDecisions.DecisionIsTold | apps/envoix-apple/Sources/ConnectionWorkflow.swift:1357-1360 | An untold callback is told yes by the acceptance, and no by the rejection, of its offer on its connection |
| OfferDecisions.DecisionIsToldForGood | apps/envoix-apple/Sources/ConnectionWorkflow.swift:1357-1360 | The same in every state of every run afterwards |
| OfferDecisions.YesIffAcceptedInTime | apps/envoix-apple/Sources/ConnectionWorkflow.swift:1357-1360 | Over every run an untold callback ends up told yes if and only if the acceptance of its offer on its connection arrives before anything else has told it |
| OfferDecisions.NewerLifetimeIsAdopted | apps/envoix-apple/Sources/ConnectionWorkflow.swift:1464-1470 | While connected a lifetime is adopted as a whole if its revision is larger, and otherwise changes nothing |
| OfferDecisions.ConnectingAdopts | apps/envoix-apple/Sources/ConnectionWorkflow.swift:1327-1350 | A peer that connects while hosting or joining makes control connected with the announced lifetime; at any other time nothing happens |
| OfferDecisions.TickExpiresIff | apps/envoix-apple/Sources/ConnectionWorkflow.swift:1248-1278 | A tick begins the idle expiry exactly for the creator of a quiet idle room past its deadline with nothing incoming and no expiry pending |
| OfferDecisions.EndingsSayWhy | apps/envoix-apple/Sources/ConnectionWorkflow.swift:1289-1587 | Every ending leaves control with its own reason or message, and a failure during an expiry is only noted |
| MatrixPlan.ValidateRegistry | scripts/matrix_contract.py:1098-1141 | No violation is found exactly when the registry keeps the rules the planner relies on |
| MatrixPlan.ResolveCases | scripts/matrix_contract.py:1178-1248 | Exactly one selection mode; the chosen cases in registry order, or the same error |
| MatrixPlan.SelectKeepsDistinct | scripts/matrix_contract.py:1245-1248 | Selected cases keep distinct ids |
| MatrixPlan.SelectionNameOk | scripts/matrix_contract.py:1202-1248 | The selection's name passes the plan's text check |
| MatrixPlan.BuildRunPlan | scripts/matrix_contract.py:1251-1314 | The nested loops build repetitions 1 to n of every case in order, or stop at the first complaint |
| MatrixPlan.CheckExecutions | scripts/matrix_contract.py:1365-1421 | The loop over the executions finds nothing exactly when each agrees with its case and no two are the same |
| MatrixPlan.CheckRepetitions | scripts/matrix_contract.py:1422-1431 | The loop over the table finds nothing exactly when each case's repetitions are 1 to n with n large enough |
| MatrixPlan.ValidateRunPlan | scripts/matrix_contract.py:1317-1432 | No complaint exactly when the plan is in order |
| MatrixPlan.PlanPassesCheck | scripts/matrix_contract.py:1178-1432 | For every registry without violations, every request that resolves and every plan built from it, the checker has no complaint |
| MatrixPlan.AcceptedPlanCovers | scripts/matrix_contract.py:1365-1432 | In an accepted plan a case that appears is planned for exactly the repetitions 1 to n, each once, with n between the required number and ten |
| MatrixPlan.CountStatuses | scripts/matrix_contract.py:1621 | The counter loop counts every status exactly |
| MatrixPlan.DecideGate | scripts/matrix_contract.py:1622-1628 | The loop over the required executions decides the gate |
| MatrixPlan.AggregateRun | scripts/matrix_contract.py:1584-1646 | One record per execution, exact counts, the gate, and failure exactly when some result is a failure |
| MatrixPlan.PassIsEarned | scripts/matrix_contract.py:1492-1572 | A pass counts if and only if the record on disk is a valid pass, and only for an execution that was to be executed |
| MatrixPlan.NoPassWithoutExecution | scripts/matrix_contract.py:1584-1632 | For every accepted plan a dry run counts no pass and never opens the gate, and no deferred execution is a pass |
| MatrixPlan.GatePassIff | scripts/matrix_contract.py:1622-1628 | The gate opens exactly when something is required and every required execution has a valid passing record |
| MatrixPlan.MissingRecordCode | scripts/matrix_contract.py:1590-1610 | A missing record is reported as missing only where an execution was due; for a deferred one the substitute is itself replaced |
| MatrixPlan.SummaryIsComplete | scripts/matrix_contract.py:1621-1646 | Every execution is counted once in the summary |
| MatrixPlan.ResolvesToWhatWasAsked | scripts/matrix_contract.py:1178-1248 | What is resolved is, in registry order, exactly the cases asked for: by id with every id present, by gate, by tag, or by direction and scenario; each once for a registry without violations |
| MatrixPlan.PlanIsBuiltIff | scripts/matrix_contract.py:1251-1288 | A plan is built if and only if run id, commit, variant and repetition override are in order and no case objects to them |
| MatrixPlan.PlanSays | scripts/matrix_contract.py:1271-1314 | A plan carries the run's own options, every execution copies its case and has the disposition its case and options call for, and each case is planned for exactly the repetitions asked for |
| MatrixPlan.ResultFitsPlan | scripts/matrix_contract.py:1492-1572 | The counted status is always one its execution's disposition admits, or an infrastructure failure |
| MatrixPlan.ProperRecordCounts | scripts/matrix_contract.py:1590-1612 | A record in proper form is counted as it stands |
| Text.Utf8RoundTrip | apps/envoix-apple/Sources/BleRendezvousProtocol.swift:203-233 | Strict UTF-8 decoding undoes encoding |
| Text.HexRoundTrip | apps/envoix-apple/Sources/BleRendezvousProtocol.swift:203-233 | The printed request id identifies the number |

## Left out

- Platform and foreign calls (CoreBluetooth, CoreNFC, Network, WiFiAware, JNI, UniFFI, tokio): only the state changes around them are modelled, as events or parameters.
- SPAKE2, SHA-256, shared-secret derivation and invitation parsing: the offer predicate, the sanitiser, character segmentation and payload protection are parameters; the remembered-peer store's rotation is stated as part of the step, not read from its code.
- Bluetooth identity payloads (`encodeIdentity`, `decodeIdentity`) and provisional display names: short codecs that would only add easier members.
- Endpoint attempts and inbound admission (`WifiAwareEndpointAttemptState`, `WifiAwareInboundConnectionAdmission`): counters with no property beyond their own body.
- The Wi-Fi Aware transfer fallback observer, offer paging, `validate_public_plan` and `commit_results`: not modelled.
- Await-point re-entrancy inside `stopControlChannels` and `replacePairedDevices`: each is one atomic step of the route model.
- Cancel and peer-close racing a refused room close: the queue model has enqueue and worker steps only.
- Remembered-room reconnect tasks: the offer model is the one-time room; a decision callback is taken not to call back into the workflow while it runs.
- Unicode: texts are sequences of scalars. Prefix tests, replacement and comparison are per scalar; lower-casing of peer keys is ASCII only, since no other scalar lowers to a hexadecimal digit.
- File-system failures while cleaning up, file copying, APFS cloning and file protection: removal succeeds, and a copy is described by the attributes the source reads back.
- JSON shape errors of registry, plan and records: these values are typed in the model, so unknown and missing fields do not arise; regex redaction and the scan for sensitive text are not modelled.
- Counter wrap-around of the control generation, and collisions of UUIDs and of random request ids: generations are unbounded, tokens are fresh, request keys are distinct by hypothesis where a row says so.
- MatrixPlan.ValidateRegistry: covers the fields the planner and the checker read, not the evidence, hardware and issue-list rules.
- MatrixPlan.ResolveCases: the warnings for legacy combinations without a case are not modelled; the selection and the errors are.
- MatrixPlan.ValidateRunPlan: the complaints about one execution's fields are one complaint in the model; whether there is any is exact.
- PeerRoutes.StepKeepsTables: heartbeats, observation events and the remembered inbound requests are not part of the tables.
- NfcRead.PresentedInvitationIsRead: the platform's own NDEF parser is taken to cut the record where the envelope check says.
- OfferDecisions.TasksOfAnEndedConnectionAreHarmless: the handle of the local-transfer sync task, which that task clears without a generation test (ConnectionWorkflow.swift line 1502), is not part of the state.
- StagingLifecycle.StagingSession.RemoveNow: the cancelling thread's cleanup without interruption; the interleaved cleanup is the step machine's.
