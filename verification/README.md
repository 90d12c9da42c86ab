# OpenMux: a verified model of the write-slot protocol and its neighbours

OpenMux lets many clients share one serial console. Each port has 0, 1 or any number of
read-write seats; an access ladder decides who may ask for one, and a takeover moves a seat from
its holder to another client. This project models that protocol in Dafny and proves what it keeps
over every run and every interleaving. Seven smaller parts that are state machines or codecs in their
own right, six of the server and one of its loopback script, are modelled and proved beside it.

Check everything with `dafny verify dfyconfig.toml`.

## How the model is built

The write-slot protocol is modelled twice, and the two are tied together.

- `PortSeats` is one port on values: records, delivery queues, the shared queue, scrollback and
  holds, with one `Call` per `PortManager` method and `Apply` as its effect. `PortDelivery` sets it
  against books that forget nothing: every chunk ever offered to any queue, removed ones included, and
  how it left.
- `AccessControl`, `AccessDecision` and `AccessLadder` give capacities, outcome codes and who may
  drive a port; `TakeTargets` says whom a take displaces. `ModeReading` says which configured and wire
  values mean which mode, `PortAdmission` whom each mode lets write, `LadderLaws` what the group lists
  mean, each without the functions that compute it. `SharedQueue` does so for the queues.
- `Protocol` is the step system. A request (connect, disconnect, promote, release, take) is cut at
  the suspension points of its coroutine: `Begin` runs to the first one, `Resume` from one to the
  next. A failed promotion and the restore of the victim form one segment, as they do in the
  source. The reply of a federated origin is an arbitrary input.
- `ProtocolSafety` runs any number of sessions through these segments in any order, with device
  output and writes in between, and proves capacity, handover, takeover and federation safety
  without any assumption about sessions. `ProtocolEntitlement` says, just as generally, who can come to
  hold a seat, and `EntitlementGap` exactly when a client that is not entitled can. `ProtocolAgreement`
  adds one request at a time per client and proves that the maps agree and that every writer on any
  port is entitled; `TakeoverRuns` proves that a takeover then always leaves one writer and which, and
  shows a run where it does not otherwise. `ProtocolCases` lists where each segment can end.
- `ProtocolAlone` runs one request's segments back to back and gives closed forms; `Takeover` and
  `Refusals` prove what such a request achieves and what its answer is worth, and `Answers` gives the
  code, the mode and the change for every request from the configuration and the records alone.
- `PortManager` and `ConsoleManager` are classes that update fields in place, with the source's
  search and counting loops. Each `PortManager` method is proved to perform exactly one `Call`, and
  each `ConsoleManager` method to end in exactly the state and answer that its coroutine's segments
  give when nothing runs in between.

The other parts: `EscapeScanner` (in-band menu escape of a listener session), `EscSanitizer` (the
loopback script's escape sanitizer), `AuthLockout` (failure windows, locks, password challenges),
`MuxConFrames` (frame encoders, header parser, frame reader), `CloseReason` with `Utf8` (the
byte-bounded decision message), `LineLog` (the line splitter of the data logger), `NaturalSort`
(the port-name sort key). `EscapeMeaning`, `EscTokens`, `LoginLockout`, `FrameForm` and `LineReading` say
what these do to what is sent to them. `Prelude` and `PyText` hold shared vocabulary and Python's number
reading, whose meaning is in `PyTextLaws`.

## Assumptions

- Permissions, groups, `access_default` and the set of ports do not change during a run. Each client
  id has one fixed user name; where a statement requires `NamedClients`, it is not empty.
- `MapsAgree`, `OnePortPerClient`, `WritersAreEntitled` (which covers federated ports) and
  `SerialTakeoverLeavesOneWriter` are about runs in which a client asks for everything but a demotion in
  its own session, one request at a time. `OverlappingConnectsListTwice` shows that the maps do disagree
  without this. The capacity, handover and federation results, entitlement on local ports
  (`LocalWritersAreEntitled`) and the exact condition for entitlement on any port
  (`UnentitledWriterExactly`) need no such assumption.
- The lockout clock does not run backwards and starts at or after zero; times are real numbers, so
  rounding of floating-point seconds is not modelled. The three clock readings of one password
  verification are separate.
- In the pump, forwarding to the port succeeds and no read-only gate drops bytes.

## Where the code and its documentation disagree

- `capacity_from_wire` is documented never to unlock unlimited writers for an unknown value. Of the
  values the local reader rejects, exactly two families do: negative numerals in text, such as `"-1"`
  (`NegativeNumeralUnlocks`), and whole floats from two on, such as `2.0` (`WholeFloatUnlocks`).
  `UnknownValueUnlocksExactly` is the if-and-only-if. `ReadersAgreeExactly` answers a different
  question, when the local and the wire reading of one value agree.
- `AccessDecision.mode` is documented as the mode the client really holds after the decision. That
  holds for every granting answer (`GrantsReportTheMode`). A refusal can miss it, and
  `RefusalsReportTheModeExactly` says when, by what is known before the request: a refused promotion or
  take tells the truth if and only if the client did not drive the port, a refused release if and only
  if it did, and a refused connect unless the client drove the port without being seated there, which
  cannot happen while the maps agree (`ConnectRefusalsAreTrue`). Two families that miss it:
  a holder that names a take target (`HolderNamingATargetIsMisreported`), and a writer on a federated
  port that the origin then denies (`DeniedWriterIsMisreported`).
- A takeover is meant never to leave a port without a writer. While each client asks in its own
  session, one request at a time, it never does, whatever becomes of the victim
  (`SerialTakeoverLeavesOneWriter`). With overlapping requests of one client it can:
  `OverlapLeavesNoWriter` is a run from server start in which, while the demotion is announced, the
  victim leaves and another session disconnects the taker. `TakeoverEndsWithOneWriter` gives the exact
  condition before the step: no writer, the victim gone, and the taker no longer seated, listed and
  entitled.
- Only users whom the ladder lets drive a port are meant to hold its seat, and it is asked about every
  request for one. On a federated port the origin's answer comes later, and a client that the port does not
  list at the moment of asking is judged by its adapter's permissions under its own client id. So while
  the stream of such a port closes, a promotion asked for in another session can pass, and once the
  client has attached again the origin's grant seats it. `UnentitledWriterExactly` says for which
  clients and ports some run does so, by the configuration alone; `HonestWritersAreEntitled`
  shows that there is no such run if adapters report the client's own user and no client id is a user.
- `disconnect_client_from_port` is documented to return whether the client was disconnected. When two
  disconnects of one client overlap on a federated port, one of them fails with a KeyError instead
  (`OverlappingDisconnectsRaise`).
- `failure_threshold` is meant to be the number of failures before the lock engages. With a threshold
  of one the first failure locks nothing (`ThresholdOneSparesTheFirst`); `LockCurve` is exact for
  every threshold.

## Model

| member | source | states |
|---|---|---|
| AccessControl.WireKeepsCapacity | openmux/server/access_control.py:162-209 | whatever a port is configured with, a peer that reads the capacity sent on the wire enforces the capacity this server enforces |
| AccessControl.ReadersAgreeExactly | openmux/server/access_control.py:55-139 | the local and the wire reading of one value give the same capacity if and only if it is neither a negative numeral nor a whole float other than one |
| AccessControl.UnknownValueUnlocksExactly | openmux/server/access_control.py:201-209 | a value that is invalid locally is unlimited on the wire if and only if it is a negative numeral or a whole float of at least two |
| AccessControl.WholeFloatUnlocks | openmux/server/access_control.py:201-209 | the float 2.0 is invalid locally and unlimited on the wire |
| AccessControl.NegativeNumeralUnlocks | openmux/server/access_control.py:201-209 | the text "-1" is invalid locally and unlimited on the wire |
| AccessControl.NamedModeRoundTrip | openmux/server/access_control.py:55-139 | each mode name reads back as its mode, locally and on the wire |
| PyTextLaws.IntIsRead | openmux/server/access_control.py:79-92 | `int` reads runs of digits joined by single underscores, signed or not and padded or not, as their value |
| PyTextLaws.OnlyIntsAreRead | openmux/server/access_control.py:79-92 | and it reads no other trimmed text |
| PyTextLaws.DigitsCountTens | openmux/server/access_control.py:79-92 | the characters 0 to 9 are the digits, and each further one counts what is before it tenfold |
| ModeReading.NamesAreRead | openmux/server/access_control.py:79-92 | `none`, `one` and `multiple`, in any case and with any padding, are read as their modes, locally and on the wire |
| ModeReading.NumeralsAreRead | openmux/server/access_control.py:84-139 | a numeral in text means none for 0, one for 1 and multiple above; below zero it is refused locally and multiple on the wire |
| ModeReading.OtherTextsAreRefused | openmux/server/access_control.py:55-139 | any other text is refused locally and one on the wire |
| ModeReading.OtherValuesAreRead | openmux/server/access_control.py:55-139 | what unset, integers, floats, booleans and other values mean in both readers |
| ModeReading.PrintedIdIsTheTail | openmux/server/access_control.py:32-48 | a client id is printed as its last eight characters, whole if it is no longer or federated |
| PortSeats.CallMovesRecords | openmux/server/port_manager.py:653-690 | every port operation keeps client ids unique and moves only the record of the client it names, in the way the operation promises |
| PortSeats.CallKeepsSound | openmux/server/port_manager.py:740-795 | no operation lists a client twice or seats more read-write clients than the capacity, in-place re-adds that do not count the caller included |
| PortSeats.RunKeepsSound | openmux/server/port_manager.py:941-1033 | the same over every run of operations |
| PortSeats.SeatIsDriving | openmux/server/port_manager.py:1107-1118 | the seat check of a promotion and the write gate agree on who writes |
| PortSeats.OneDriver | openmux/server/port_manager.py:1037-1118 | two different clients that both pass the write gate need two seats |
| PortSeats.WriterHandover | openmux/server/port_manager.py:1037-1118 | on a one-seat port, between accepted writes of two clients the first was demoted, removed or re-added |
| PortAdmission.AddIsAdmittedExactly | openmux/server/port_manager.py:740-795 | an add is accepted if and only if it is read-only, or the port is `multiple`, or it is `one` and nobody else writes there |
| PortAdmission.PromoteIsAdmittedExactly | openmux/server/port_manager.py:941-997 | a promotion is accepted if and only if the client is listed and the port is `multiple`, or `one` and the client writes already or nobody does; on a `none` port never |
| PortAdmission.ManyWriteTogether | openmux/server/port_manager.py:941-997 | on a `multiple` port a listed client that asks writes from then on, beside everyone who did |
| PortAdmission.ModeBoundsWriters | openmux/server/port_manager.py:740-1035 | over every run nobody writes on a `none` port and no two clients on a `one` port |
| PortAdmission.ListKeepsItsOrder | openmux/server/port_manager.py:653-690 | newcomers are listed last, re-adds and mode changes keep every place, a removal closes its gap |
| PortDelivery.CallRefines | openmux/server/port_manager.py:1226-1339 | every operation keeps queues, shared queue, drop counter, holds and scrollback equal to what the full history determines |
| PortDelivery.RunRefines | openmux/server/port_manager.py:1226-1339 | the same over every run |
| PortDelivery.QueueIsRecentHistory | openmux/server/port_manager.py:1316-1339 | in any run, a client's queue is the most recent of the chunks that arrived since it attached, in order and at most 100, and accepted deliveries + evictions + queued is their number |
| PortDelivery.LedgerFollowsCalls | openmux/server/port_manager.py:1226-1339 | while a client is not removed, what its queue was offered is exactly the payloads of the intakes, in order, and what it delivered is exactly the accepted deliveries |
| PortDelivery.DroppedIsEveryEviction | openmux/server/port_manager.py:1316-1339 | over every run the drop counter is the number of evictions over every queue there ever was, removed ones and the shared one included |
| PortDelivery.SumOfOffer | openmux/server/port_manager.py:1316-1339 | one chunk for every queue evicts exactly once from each full one |
| PortDelivery.ScrollbackIsTail | openmux/server/port_manager.py:1263-1269 | in any run the scrollback is the end of everything received, all of it up to the configured size and exactly that many bytes beyond |
| PortDelivery.DeliveryIsOldest | openmux/server/port_manager.py:1316-1339 | a delivery hands out the oldest chunk that has neither been delivered nor evicted |
| PortDelivery.ReAddKeepsQueue | openmux/server/port_manager.py:671-690 | re-adding an attached client loses no queued chunk |
| PortDelivery.SameEvictions | openmux/server/port_manager.py:1316-1339 | the queues that drop a chunk are exactly those whose history is a full queue ahead of its exits |
| SharedQueue.SharedQueueIsRecent | openmux/server/port_manager.py:1276-1308 | in any run the shared queue is the most recent of the chunks that came while a client was attached, a hold was open or the sender insisted; a local port keeps at most 100, and exactly the last 100 while nobody reads or releases |
| SharedQueue.HoldsAreHeld | openmux/server/port_manager.py:1120-1162 | the holds open are those taken and not yet dropped, a drop without a hold being ignored |
| SharedQueue.LastReleaseDrains | openmux/server/port_manager.py:1139-1162 | dropping a hold empties the shared queue exactly when no other is left |
| SharedQueue.UnservedQueueKeepsTheLast | openmux/server/port_manager.py:1316-1339 | until a client is first served its queue is every chunk since it attached, or the last 100 |
| PortManager.PortManager.FindExistingClientIdx | openmux/server/port_manager.py:653-658 | the index of the client's first record, or the length |
| PortManager.PortManager.RwCounts | openmux/server/port_manager.py:660-669 | seats held by anyone but the caller, and the capacity |
| PortManager.PortManager.HasSeat | openmux/server/port_manager.py:941-997 | whether any record of the client is read-write |
| PortManager.PortManager.CountWriters | openmux/server/port_manager.py:941-997 | the read-write records of the port |
| PortManager.PortManager.AddClientToPort | openmux/server/port_manager.py:740-795 | performs exactly the add on the named port and no other, and answers whether it was allowed |
| PortManager.PortManager.RemoveClientFromPort | openmux/server/port_manager.py:797-819 | removes the record and its queue, answers whether there was one |
| PortManager.PortManager.PromoteClient | openmux/server/port_manager.py:941-997 | promotes when a seat is held or free and the client is listed, else changes nothing |
| PortManager.PortManager.DemoteClient | openmux/server/port_manager.py:999-1035 | demotes a listed client |
| PortManager.PortManager.ClientWriteMode | openmux/server/port_manager.py:1107-1118 | the write gate reads the client's first record |
| PortManager.PortManager.WriteToPort | openmux/server/port_manager.py:1037-1105 | a write succeeds exactly when the client holds a read-write record and the device took it |
| PortManager.PortManager.FanOutToClientQueues | openmux/server/port_manager.py:1316-1339 | every queue gains the chunk, full ones lose their oldest, and the drop counter grows by the number of full ones |
| PortManager.PortManager.HandleIncomingPortData | openmux/server/port_manager.py:1226-1314 | performs exactly the intake of the chunk on the named port |
| PortManager.PortManager.NextChunk | openmux/server/console_manager.py:946-990 | a forwarding task takes the oldest queued chunk of its client |
| PortManager.PortManager.GetPortData | openmux/server/port_manager.py:1164-1193 | takes the oldest chunk of the shared queue |
| PortManager.PortManager.GetScrollback | openmux/server/port_manager.py:1341-1354 | the retained bytes, none for an unknown port |
| PortManager.PortManager.AddFederationBufferingHold | openmux/server/port_manager.py:1120-1137 | adds one hold |
| PortManager.PortManager.RemoveFederationBufferingHold | openmux/server/port_manager.py:1139-1162 | drops one hold and drains the shared queue with the last |
| TakeTargets.MatchIsMeaning | openmux/server/console_manager.py:42-55 | a holder is matched if and only if the name is its exact id, or nobody has that exact id and it alone prints so |
| TakeTargets.LatestIsFirst | openmux/server/console_manager.py:1135-1169 | the default victim is the first listed among the latest attached holders |
| TakeTargets.NoHolderIsExact | openmux/server/console_manager.py:1135-1169 | the code is no_holder if and only if nobody else is listed read-write |
| TakeTargets.NamedChoiceIsExact | openmux/server/console_manager.py:1135-1169 | a named target chooses a holder if and only if it means that holder |
| TakeTargets.InvalidTargetIsExact | openmux/server/console_manager.py:1135-1169 | the code is invalid_target if and only if there are holders and the named target means none of them |
| TakeTargets.DefaultChoiceIsLatest | openmux/server/console_manager.py:1135-1169 | without a target the victim is a holder that no other holder attached later than |
| AccessLadder.TakerEntitled | openmux/server/console_manager.py:316-354 | an admin may drive; on a port with group lists so may members of a read-write group, whatever their role, members of a read-only group may watch and others are denied by the lists; without lists the server default and then the role decide |
| LadderLaws.ReadOnlyGroupSeatsNobody | openmux/server/console_manager.py:316-354 | listing a group as read-only lets no non-admin drive who could not, and lets its members watch |
| LadderLaws.ReadWriteGroupSeatsItsMembers | openmux/server/console_manager.py:316-354 | listing a group as read-write lets exactly its members drive, beside those the lists let drive already |
| LadderLaws.ListsOverrideRoles | openmux/server/console_manager.py:316-354 | with lists a role other than admin counts for nothing, without them groups do |
| LadderLaws.UserGroupIsEveryone | openmux/server/auth_manager.py:631-656 | listing the group "user" lets every known identity in |
| LadderLaws.WritersByTheLists | openmux/server/console_manager.py:316-354 | over every run on a local port: whoever drives is an admin, a member of a listed read-write group, or, without lists and unless the server denies by default, a user with the role read-write |
| ProtocolSafety.StepExplained | openmux/server/console_manager.py:433-777 | the port operations a segment lists account for every change it makes to any port |
| ProtocolSafety.SeatsNeverExceeded | openmux/server/console_manager.py:433-777 | in every interleaving, after every step, on every port: unique client ids, no writer on a `none` port, at most one on a `one` port |
| ProtocolSafety.WritesAlternateOnlyByHandover | openmux/server/console_manager.py:781-792 | in every interleaving on a one-seat port, between accepted writes of two clients some step demoted, detached or re-attached the first |
| ProtocolSafety.PromoteOutcome | openmux/server/port_manager.py:941-997 | on a one-seat port a promotion succeeds if and only if the client is listed and drives already or nobody does |
| ProtocolSafety.TakeoverEndsWithOneWriter | openmux/server/console_manager.py:1171-1236 | after promote-or-restore a one-seat port has no writer if and only if before it had none, the victim was gone, and the taker was no longer seated, listed and entitled; otherwise exactly one |
| ProtocolSafety.TakeoverKeepsAWriter | openmux/server/console_manager.py:1171-1236 | over every interleaving from server start, that step leaves exactly one writer or the victim is no longer attached |
| ProtocolSafety.OriginAloneGrants | openmux/server/console_manager.py:608-627 | over every run, a record on a federated port turns read-write only in a step that resumes a request of that client on that port with the origin's answer "read-write" |
| ProtocolAgreement.StepAgrees | openmux/server/console_manager.py:433-606 | one step of any client's request keeps seat map, records, queues, tasks and entitlement in agreement, also across suspensions |
| ProtocolAgreement.MapsAgree | openmux/server/console_manager.py:433-606 | over every run, on a local port: the seat map names it, it lists the client, it holds a queue for it and the client's forwarding task serves it, all or none |
| ProtocolAgreement.OnePortPerClient | openmux/server/console_manager.py:433-606 | over every run a client is listed on at most one port |
| ProtocolAgreement.WritersAreEntitled | openmux/server/console_manager.py:316-354 | over every run every read-write record, however gained, the restored victim included, belongs to a user whom the ladder lets drive the port |
| ProtocolEntitlement.LocalWritersAreEntitled | openmux/server/console_manager.py:316-354 | in every run, with any number of requests open per client, every read-write record on a local port belongs to a user whom the ladder lets drive it |
| ProtocolEntitlement.WritersMayHold | openmux/server/console_manager.py:608-715 | in every run, with any number of requests open per client, every writer on any port is a user the ladder does not turn away, and either may drive the port or, on a federated one, passes the ladder there under its adapter's permissions |
| ProtocolEntitlement.HonestWritersAreEntitled | openmux/server/console_manager.py:1274-1291 | if adapters report the client's own user and no client id is itself a user, every writer on any port, federated ones included, may drive it, in every run |
| EntitlementGap.UnentitledWriterExactly | openmux/server/console_manager.py:578-715 | a client that may not drive a port drives it in some run if and only if the port is federated and has a seat, the client's user may watch it, and the client passes the ladder there under its adapter's permissions and its own id |
| TakeoverRuns.SerialTakeoverLeavesOneWriter | openmux/server/console_manager.py:1171-1236 | with one request at a time per client, in every interleaving, promote-or-restore leaves exactly one writer: the taker if and only if nobody else drove the port before the step, and otherwise whoever did |
| TakeoverRuns.OverlapLeavesNoWriter | openmux/server/console_manager.py:1171-1236 | a run from server start whose promote-or-restore step leaves no writer: victim gone, taker disconnected by another session |
| ProtocolAgreement.OverlappingConnectsListTwice | openmux/server/console_manager.py:433-502 | two overlapping connects of one client list it on two ports |
| ProtocolAgreement.OverlappingDisconnectsRaise | openmux/server/console_manager.py:578-606 | of two overlapping disconnects of one client on a federated port, the first fails with a KeyError once its stream has closed |
| ProtocolAlone.PhasesAdvance | openmux/server/console_manager.py:433-777 | a request suspends a bounded number of times |
| ProtocolAlone.ConnectRunsAlone | openmux/server/console_manager.py:433-502 | a connect alone leaves the old port, then attaches |
| ProtocolAlone.DisconnectRunsAlone | openmux/server/console_manager.py:578-606 | a disconnect alone removes record, task and seat, or reports that there was none |
| ProtocolAlone.AdmitRunsAlone | openmux/server/console_manager.py:470-502 | what an admitted client ends up with, the origin's verdict on a federated port included |
| ProtocolAlone.RequestVerdict | openmux/server/console_manager.py:629-715 | a request alone is granted exactly when its promotion is, whatever the origin answers |
| ProtocolAlone.GiveUpVerdict | openmux/server/console_manager.py:717-779 | a release alone is granted exactly when the client sits there and its record was demoted |
| ProtocolAlone.TakeFromRunsAlone | openmux/server/console_manager.py:1171-1236 | a take alone from a chosen victim either transfers the seat, restores the victim, or finds the victim gone |
| ProtocolAlone.TakeOfEmptyRunsAlone | openmux/server/console_manager.py:1429-1470 | a take of an empty slot alone answers already_rw, grants the promotion, or refuses |
| ProtocolAlone.FederatedTakeRunsAlone | openmux/server/console_manager.py:1293-1346 | a federated take alone changes nothing unless the origin grants it, and then mirrors the taker's record |
| Takeover.TakeAlwaysWins | openmux/server/console_manager.py:1348-1470 | run to completion, a take without target by an attached, entitled client on a local `one` port ends with it as sole writer, names the displaced holder, and touches no seat, task or other port |
| Takeover.NamedTakeWinsOrChangesNothing | openmux/server/console_manager.py:1348-1470 | with a target it does the same exactly when another client drives the port and the target is its exact or printed id, and otherwise is refused and changes nothing |
| Takeover.HolderNamingATargetIsMisreported | openmux/server/console_manager.py:1455-1464 | a holder that names a target is told it is read-only while its record stays read-write |
| Takeover.GrantsReportTheMode | openmux/server/access_decision.py:361-373 | run to completion, every granting answer to any request, local or federated, reports the mode the client's record then holds |
| Refusals.RefusalsReportTheModeExactly | openmux/server/access_decision.py:361-373 | run to completion, a refusal of any request reports whether the client may write if and only if a condition known before the request holds |
| Refusals.ConnectRefusalsAreTrue | openmux/server/console_manager.py:504-576 | from a state in which the maps agree, a refused connect always does |
| Refusals.DeniedWriterIsMisreported | openmux/server/console_manager.py:629-696 | a writer on a federated port that the origin denies is told it is read-only while nothing changes |
| Refusals.RefusedPromotionKeeps | openmux/server/console_manager.py:608-715 | a refused promotion changes nothing, whatever the origin answered |
| Takeover.RequestsKeepIdle | openmux/server/console_manager.py:433-777 | a request run to completion leads from one state in which all maps agree to another |
| Takeover.ServerStartsIdle | openmux/server/console_manager.py:71-100 | the server starts in such a state |
| Answers.LocalConnectOutcome | openmux/server/console_manager.py:433-576 | a connect to a local port: unknown and barred users change nothing and are told why; watchers join read-only; users who may drive join read-write on a `multiple` port and on an undriven `one` port, and read-only, told why, otherwise |
| Answers.FederatedConnectOutcome | openmux/server/console_manager.py:515-576 | on a federated port everyone let in joins read-only first, and is seated only if it may drive, the local records leave a seat and the origin says read-write |
| Answers.MissingPortOutcome | openmux/server/console_manager.py:433-576 | a connect to a port that is not there changes nothing |
| Answers.DisconnectOutcome | openmux/server/console_manager.py:578-606 | a disconnect takes the client's record, queue, seat and task, and no one else's |
| Answers.RequestOutcome | openmux/server/console_manager.py:629-715 | a request by a sitting client is granted if and only if its user may drive, the origin of a federated port says read-write, and its mode leaves a seat; each refusal has its code and changes nothing |
| Answers.ReleaseOutcome | openmux/server/console_manager.py:717-779 | a release by a sitting client always leaves it listed read-only, any other is refused |
| Answers.StrangersAreNotAttached | openmux/server/console_manager.py:578-715 | whoever does not sit on the port is told so and changes nothing |
| Answers.BarredTakeOutcome | openmux/server/console_manager.py:1348-1427 | a take by a client that may not drive is refused with the rule's code |
| Answers.SeatlessTakeOutcome | openmux/server/console_manager.py:1429-1470 | a take on a `none` port answers no_write_slot, on a `multiple` one already_rw or take_without_slot, and changes nothing |
| Answers.NoSeatToTakeOutcome | openmux/server/console_manager.py:1429-1470 | the same on a port whose value is no mode and that the take does not read as `one` |
| Answers.RefusedNameOutcome | openmux/server/console_manager.py:1135-1169 | a named take that finds no such holder answers no_holder when nobody else writes and invalid_target when someone does |
| Answers.FederatedTakeOutcome | openmux/server/console_manager.py:1293-1346 | a federated take needs the origin's read-write twice and a local seat, and names the target as displaced exactly when it is listed here |
| Answers.TurnedAwayTakeOutcome | openmux/server/console_manager.py:1171-1236 | a taker turned away after the demotion is answered promote_failed and the victim gets a free seat back |
| ConsoleManager.ConsoleManager.PortHasWriteSlots | openmux/server/console_manager.py:266-282 | whether a seat is free |
| ConsoleManager.ConsoleManager.AccessMode | openmux/server/console_manager.py:382-431 | the ladder's code and mode for an attach |
| ConsoleManager.ConsoleManager.TakeWriteSlotPermissions | openmux/server/console_manager.py:1274-1291 | the name and permission the ladder is asked about, record first, adapter name second |
| ConsoleManager.ConsoleManager.ConnectClientToPort | openmux/server/console_manager.py:433-502 | state and answer are those of the connect's segments run alone |
| ConsoleManager.ConsoleManager.AttachToPort | openmux/server/console_manager.py:515-576 | state and answer are those of the attach part run alone |
| ConsoleManager.ConsoleManager.DisconnectClientFromPort | openmux/server/console_manager.py:578-606 | state and answer are those of the disconnect's segments run alone |
| ConsoleManager.ConsoleManager.RequestFederatedPromotion | openmux/server/console_manager.py:608-627 | promotes the record exactly when the origin said read-write |
| ConsoleManager.ConsoleManager.PromoteClientToReadWrite | openmux/server/console_manager.py:629-715 | state and answer are those of the promotion's segments run alone |
| ConsoleManager.ConsoleManager.DemoteClientToReadOnly | openmux/server/console_manager.py:717-779 | state and answer are those of the release's segments run alone |
| ConsoleManager.ConsoleManager.TakeSlotLocal | openmux/server/console_manager.py:1171-1236 | demote, promote, restore on failure: what the segments of that take give alone |
| ConsoleManager.ConsoleManager.TakeWriteSlotLocal | openmux/server/console_manager.py:1429-1470 | the same for a local take of any capacity and target |
| ConsoleManager.ConsoleManager.TakeWriteSlotFederated | openmux/server/console_manager.py:1293-1346 | the same for a take arbitrated by the origin |
| ConsoleManager.ConsoleManager.TakeWriteSlot | openmux/server/console_manager.py:1348-1427 | state and answer are those of the take's segments run alone |
| ConsoleManager.ConsoleManager.WriteToPort | openmux/server/console_manager.py:781-792 | a write passes exactly when the gate accepts it and the device took it |
| EscapeScanner.FeedEscapeByte | openmux/server/listener_session.py:108-138 | one byte of the escape scanner |
| EscapeScanner.ScanIsLossless | openmux/server/listener_session.py:108-138 | no byte is lost, duplicated or reordered: held bytes and stream are the replay of the events, then what is held, swallowed or unread |
| EscapeScanner.BytesAreAccountedFor | openmux/server/listener_session.py:471-541 | bytes consumed = bytes handed on + 3 per command + 2 per completed `e` + the scanner state number + what a cut-off `e` swallowed |
| EscapeScanner.ListenerSession.ChangeEscapeSequence | openmux/server/listener_session.py:519-541 | takes the two argument bytes from the chunk or the transport and installs them, or ends with the stream |
| EscapeScanner.ListenerSession.ProcessInputChunk | openmux/server/listener_session.py:471-497 | the events of a chunk and of what the transport still holds are those of one scan |
| EscapeScanner.ListenerSession.Pump | openmux/server/listener_session.py:455-469 | however the transport cuts the stream, the session sees the events of one scan of all of it, across every change of the escape pair |
| EscapeMeaning.PairIsCommand | openmux/server/listener_session.py:108-138 | plain bytes, the pair and a command byte: the bytes go to the port, the command runs, and the scan goes on behind it or stops for `.`, `f` and `p` |
| EscapeMeaning.PairIsRebound | openmux/server/listener_session.py:519-541 | `e` behind the pair makes the next two bytes the pair for the rest of the stream |
| EscapeMeaning.CutRebindIsSwallowed | openmux/server/listener_session.py:519-541 | an `e` that the stream ends behind changes nothing and sends nothing on |
| EscapeMeaning.LoneFirstByteIsReplayed | openmux/server/listener_session.py:108-138 | the first byte of the pair followed by another byte goes to the port with it |
| EscapeMeaning.UnfinishedPairIsHeld | openmux/server/listener_session.py:108-138 | an unfinished pair at the end of the stream is held back |
| EscapeMeaning.PairIsNeverForwarded | openmux/server/listener_session.py:108-138 | wherever it stands, the pair is never handed to the port |
| EscSanitizer.Sanitizer.Sanitize | scripts/serial_loopback.py:53-194 | one call scans carry and chunk, returns the output and keeps the new carry |
| EscSanitizer.ChunkingIsInvisible | scripts/serial_loopback.py:53-194 | chunks fed one by one give the output and the carry of one call on their concatenation |
| EscSanitizer.AnyTwoCutsAgree | scripts/serial_loopback.py:53-194 | any two cuts of the same bytes agree |
| EscSanitizer.CarryShape | scripts/serial_loopback.py:50-194 | the carry is empty, ESC, ESC O, or ESC [ and digits |
| EscSanitizer.OutputIsClean | scripts/serial_loopback.py:53-194 | the output holds no control byte except CR and LF |
| EscSanitizer.SanitizingTwiceIsOnce | scripts/serial_loopback.py:53-194 | sanitizing the output again, in any chunks, changes nothing and carries nothing |
| EscSanitizer.KeysAreNamed | scripts/serial_loopback.py:93-173 | each of the sixteen known key sequences is shown under its documented name, whatever follows it |
| EscSanitizer.ControlsAreTold | scripts/serial_loopback.py:84-192 | no two control bytes are shown under the same name |
| EscTokens.TextIsKept | scripts/serial_loopback.py:53-194 | CR, LF, printable ASCII and bytes from 0x80 stand for themselves |
| EscTokens.ControlIsNamed | scripts/serial_loopback.py:84-192 | every other byte but ESC is shown by its name, whatever follows it |
| EscTokens.OtherEscapeIsBare | scripts/serial_loopback.py:174-176 | an ESC before anything but `[` and `O` is shown as [ESC] |
| EscTokens.UnknownKeyIsBare | scripts/serial_loopback.py:93-173 | so is one before an unknown key letter, whose bytes are read on |
| EscTokens.UnendedNumberIsBare | scripts/serial_loopback.py:125-152 | and one before a number that `~` does not end |
| EscTokens.NumberedKeyIsShown | scripts/serial_loopback.py:125-149 | a numbered key is shown by its name for 1 to 6, leading zeros allowed, and by its digits otherwise |
| EscTokens.UnfinishedIsHeld | scripts/serial_loopback.py:92-134 | a sequence that the stream ends in is held back whole |
| AuthLockout.AuthManager.RegisterFailure | openmux/server/auth_manager.py:290-310 | starts, restarts or advances the failure record and sets the capped lock |
| AuthLockout.AuthManager.IsUserLocked | openmux/server/auth_manager.py:317-339 | answers whether the deadline lies ahead; a locked record is left alone |
| AuthLockout.AuthManager.ClearFailures | openmux/server/auth_manager.py:312-315 | forgets the record |
| AuthLockout.AuthManager.StartPasswordChallenge | openmux/server/auth_manager.py:225-243 | replaces the user's challenge, or does nothing for a user without a password hash |
| AuthLockout.AuthManager.VerifyPasswordHmac | openmux/server/auth_manager.py:245-288 | accepts if and only if the key is not locked and the pending, unexpired challenge is met; every unlocked attempt spends the challenge and clears or counts |
| AuthLockout.QueriesAreInvisible | openmux/server/auth_manager.py:290-339 | inserting lock queries anywhere in a run changes no later lock answer and no later deadline that lies ahead, for any key |
| AuthLockout.LockCurve | openmux/server/auth_manager.py:290-339 | at every moment after every run: with threshold+k failures since the record was last begun or cleared, the key is locked until exactly min(base * 2^k, 3600) seconds after the last; below the threshold, and with just one, not at all |
| AuthLockout.OneWindowIsOneEpisode | openmux/server/auth_manager.py:290-310 | failures never cleared and all inside the window of the first count together |
| AuthLockout.ThresholdOneSparesTheFirst | openmux/server/auth_manager.py:290-310 | with a threshold of one the first failure locks nothing and the second locks on the second step of the curve |
| AuthLockout.DeadlineBound | openmux/server/auth_manager.py:290-310 | over every run no deadline lies more than an hour past the key's last failure |
| AuthLockout.LockedKeyIsInert | openmux/server/auth_manager.py:245-249 | any attempts against a locked key before the deadline are refused and change nothing |
| AuthLockout.LockedKeyStaysInert | openmux/server/auth_manager.py:245-249 | the same with any other users' failures, logins and challenges, and any lock queries, interleaved |
| AuthLockout.NoReplay | openmux/server/auth_manager.py:245-288 | over every run a user is accepted at most once per challenge started |
| AuthLockout.FreshChallengeVerdict | openmux/server/auth_manager.py:225-288 | right after a challenge starts, a response is accepted if and only if the key is not locked, it comes within 30 seconds and it is the HMAC of that nonce under the user's hash |
| AuthLockout.NoHashNoLogin | openmux/server/auth_manager.py:225-231 | over every run a user without a password hash and without a pending challenge is never accepted |
| LoginLockout.TrackerIsToldEverything | openmux/server/auth_manager.py:245-288 | over every run each refused password attempt on an unlocked key counts as exactly one failure, each accepted one clears the key, and a locked key is only asked about |
| LoginLockout.LoginsFollowTheCurve | openmux/server/auth_manager.py:245-339 | at every moment after every run of logins the key is locked if and only if it has n >= 2 failures in the current episode, n reaches the threshold, and min(base * 2^(n - threshold), 3600) seconds have not passed since the last |
| LoginLockout.WrongResponsesLock | openmux/server/auth_manager.py:245-339 | after threshold + k wrong responses in one window even the right one is refused, and changes nothing, for min(base * 2^k, 3600) seconds |
| LoginLockout.ThresholdGuessesLock | openmux/server/auth_manager.py:225-339 | from a fresh server, as many wrong answers to fresh challenges as the threshold lock the key |
| LoginLockout.KeysTellAddressesApart | openmux/server/auth_manager.py:290-293 | failures are counted apart for each user and address, all logins without an address together |
| LoginLockout.FirstEntryCounts | openmux/server/auth_manager.py:218-222 | a user's hash is that of the first entry under the name |
| LoginLockout.UnknownUserHasNone | openmux/server/auth_manager.py:218-222 | a user without an entry has no hash |
| LoginLockout.AcceptanceWipesTheRecord | openmux/server/auth_manager.py:276-288 | an accepted response leaves nothing of earlier failures of its key and spends the challenge |
| MuxConFrames.HeaderParses | openmux/server/muxcon_protocol.py:102-131 | a header followed by any ASCII tail parses to exactly its stream, type, length and sequence number if and only if its type holds no colon, for all integers |
| MuxConFrames.HeaderIsAscii | openmux/server/muxcon_protocol.py:23-58 | a header can be encoded if and only if its type is ASCII |
| MuxConFrames.FrameReadsBack | openmux/server/adapters/muxcon.py:8120-8156 | behind any bytes without '#', the reader returns a frame whole, whatever its payload holds, and stops right behind it |
| MuxConFrames.ReadingUndoesEncoding | openmux/server/muxcon_protocol.py:23-58 | reading the bytes of a list of frames gives the list |
| MuxConFrames.UniquelyDecodable | openmux/server/muxcon_protocol.py:23-58 | two frame lists with equal bytes are equal |
| MuxConFrames.TypedFramesArrive | openmux/server/muxcon_protocol.py:23-58 | control, data, open, close and acknowledgement frames arrive under their type letters with their ids and payloads, whatever follows |
| MuxConFrames.CommandFrameArrives | openmux/server/muxcon_protocol.py:29-33 | whatever `str.upper` does outside ASCII, a command frame arrives under the upper-cased command if and only if that is ASCII without a colon; for an ASCII command, if and only if it holds no colon |
| MuxConFrames.ArrivesExactly | openmux/server/muxcon_protocol.py:23-58 | any frame arrives as it was sent if and only if its type is ASCII without a colon |
| MuxConFrames.TextSurvives | openmux/server/muxcon_protocol.py:23-58 | text payloads and acknowledged numbers survive the wire |
| MuxConFrames.FrameReader.ReadFrameRaw | openmux/server/adapters/muxcon.py:8120-8156 | the byte-by-byte loops read exactly one frame and leave the rest |
| FrameForm.FrameIsWritten | openmux/server/muxcon_protocol.py:23-58 | a frame is `#stream:TYPE:length:seq:`, the payload as it is, and LF |
| FrameForm.NumbersAreWritten | openmux/server/muxcon_protocol.py:23-58 | its numbers are decimal digits without leading zeros, behind a minus if negative |
| FrameForm.HeaderIsReadExactly | openmux/server/muxcon_protocol.py:102-131 | a line is read as a header if and only if it is ASCII and, trimmed, is `#` and four colon-free fields of which the first and the last two are numerals, alone or before a colon |
| FrameForm.ReaderStopsBehindTheFrame | openmux/server/adapters/muxcon.py:8120-8156 | behind bytes without '#' and a line of four colons the reader takes the payload the header announces, none for a length below one, and one byte more; a bad header drops just its line |
| Utf8.RoundTrip | openmux/server/access_decision.py:430-436 | UTF-8 decoding undoes encoding |
| Utf8.CutKeepsLongestFit | openmux/server/access_decision.py:430-436 | cutting the bytes anywhere and ignoring a broken end keeps the longest prefix whose bytes fit |
| Utf8.BytesAreUtf8 | openmux/server/access_decision.py:430-436 | the bytes of a scalar value are those of section 3 of RFC 3629 |
| CloseReason.MessageIsLongestFit | openmux/server/access_decision.py:430-436 | the message is the longest prefix of the one-line sentence that fits in 123 bytes, and the whole sentence if and only if that fits |
| CloseReason.MessageFitsACloseFrame | openmux/server/access_decision.py:41-42 | with its status code it fits the 125 bytes of section 5.5 of RFC 6455, and it holds no CR or LF |
| LineLog.DataLogger.WriteLineRecord | openmux/server/data_logger.py:283-318 | one event writes the complete lines of buffer and data, or one note, and keeps the rest |
| LineLog.RunSplitsTheStream | openmux/server/data_logger.py:283-318 | over every run a file's data lines are the newline split of its port data with one trailing CR dropped, its buffer is the rest, and each meta event is noted once in order |
| LineLog.ChunkingIsInvisible | openmux/server/data_logger.py:283-318 | runs that bring a file the same bytes write the same lines, whatever meta events and other files come between |
| LineLog.NoByteIsLost | openmux/server/data_logger.py:283-318 | lines and buffer give back every byte of a stream without carriage returns |
| LineLog.SplitAccountsForEveryByte | openmux/server/data_logger.py:297-305 | before the carriage returns are dropped, lines and rest give back any bytes |
| LineLog.SplitIsUnique | openmux/server/data_logger.py:297-305 | there is no other way to read bytes as newline-free lines and a newline-free rest |
| LineReading.SentLinesAreLogged | openmux/server/data_logger.py:283-318 | lines sent with LF or CR LF, cut into events anyhow, are logged as they were sent and the unfinished one is held back |
| LineReading.RecordsCarryTheirStamps | openmux/server/data_logger.py:283-318 | each record carries the stamp of the event that completed it, in order, one for each LF and each meta event |
| NaturalSort.NamesAreOrdered | openmux/server/port_utils.py:12-28 | comparing sort keys never compares a number with text and is a total preorder in which names tie exactly when their keys are equal |
| NaturalSort.RunsSortByValue | openmux/server/port_utils.py:12-28 | names that differ in one maximal digit run, wherever it is, sort by its numeric value |
| NaturalSort.FirstPartDecides | openmux/server/port_utils.py:12-28 | of two names the first part that differs decides: digit runs by value, text by its first different character without regard to case; a name that ends there comes first |
| NaturalSort.SplitOfJoin | openmux/server/port_utils.py:24-25 | a name is cut into text and maximal digit runs in one way only, the one the key uses |
| NaturalSort.JoinOfSplit | openmux/server/port_utils.py:24-25 | the cut loses no character |
| NaturalSort.NumberedPortsSort | openmux/server/port_utils.py:12-22 | numbered ports sort by number |
| NaturalSort.CaseIsIgnored | openmux/server/port_utils.py:26-28 | names that differ in case only have the same key |

## Left out

- Decision wording, holders and capacity lists, frames and notices: an answer is its code, mode and displaced client.
- Logging, presence contents and meta listeners: presence broadcasts and victim notices appear only as suspension points.
- Cancellation of a suspended request, and exceptions other than the missing seat and a refused capacity.
- `fed:` pseudo-clients registered by an adapter, and the older entry points that bypass the ladder or the canonical records (`connect_client`, `disconnect_client`, `UnifiedPortWrapper.add_client`).
- The origin's side of federation: its reply is an arbitrary input, its own arbitration is not modelled.
- Creation and removal of port wrappers and federated proxies during a run, and configuration reload.
- A forwarding task keeps the queue object it started with; the model reads the client's current queue, so a task that outlives a detach is not captured.
- The prompts opened by `f` and `p` read the transport past buffered bytes; the modelled scan ends there, as it does at `.`.
- A failed forward that ends a pump session, and the read-only gate in front of the port.
- HMAC-SHA256, hexadecimal and base64 decoding are uninterpreted; API keys, public keys and external authentication are not modelled.
- MuxCon beyond framing: handshake, windows, acknowledgement handling and federation messages.
- Text that is not made of Unicode scalar values (lone surrogates); digits, spaces and case mapping outside ASCII.
- EscSanitizer.Sanitizer.Sanitize: does not model the limit on digits that some interpreters put on `int`. There `ESC [`, more than 4300 digits and `~` raise ValueError in the sanitizer instead of giving a `[CSI-...~]` token, and so do such runs of digits in port names, frame headers and capacities read with `int`.
- The jsonl log format, line templates, file rotation and failing writes.
- The command-line client, web console, SSH and telnet adapters, configuration schema and packaging.
