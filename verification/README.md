# Verification of the LoRa mesh messenger

A Dafny model of the durable secure-messaging node of this repository, of the runtime and radio gate around it, and of
the codecs it speaks, with proofs of what they promise over whole runs. `dafny verify dfyconfig.toml` checks everything.

## How the parts fit together

- **Bytes and codecs**: `Bytes`, `Powers`, `Utf8`, `Crc`, `Frame`, `Persist`, `Base64Url`, `Records`, `Json`. Each
  encoder and decoder that fills or walks a buffer in the source is a method over an array, proved equal to a function
  on byte sequences; the round trips and the error detection are proved about those functions.
- **Windows, hours, relay**: `Replay`, `Clock`, `Relay`, `Flood`.
- **The engine**: `Security` holds keys, nonces and associated data, with the primitives as a record of function
  values. `Engine` and `Ceremony` give every engine operation, pairing included, as a transition on the whole state.
  `NodeEngine.SecureNode` is the engine object with its fields, arrays and loops; every method is proved to perform
  exactly its transition.
- **One node over time**: `Node` adds flash, the frame and the text that a step holds back until its commit, and logs:
  the frames handed to the radio, the texts released to the host, the texts durably accepted, the offers made and the
  activations that came of them. Actions are the engine operations, commits (which may lose the radio or host hand-over
  to a power cut, or fail with either content of flash), and power cuts at any point. `ContactLog`, `NodeSteps`,
  `NodeFrames`, `NodeKeeps` and `NodeRuns` prove the invariant `Node.Inv` over all disciplined runs, `NodePairing` where
  each generation comes from, `PairingOnce` when no root is ever brought back, `PairingTerms` what a second offer does to
  a ceremony. `Guarantees` draws the conclusions, `Delivery` proves the happy path. `StaleCommit` and `Reactivation` show
  what happens without two parts of the discipline.
- **Many nodes**: `World` puts any number of nodes on a network that loses, repeats, reorders and alters frames.
- **The runtime and the gate**: `Runtime` gives the event handlers, `RuntimeObject.SendRuntime` the object whose fields
  they take and replace. `RuntimeBooks` holds for every event whatsoever, `RuntimeFlow` for every event that can happen,
  `RuntimeSteps` for every event in order. `RuntimeTrace` gives the actions behind each event, `Leftover` the exact
  condition under which an event keeps the node invariant, `RuntimeGuarantees` the promises to the host. `RuntimeWorld` puts many boards with their runtimes on the network. `Policy` and `Transmit` are the generation-token
  gate and the single transmit routine.

"On air" means handed to the radio after the commit. "Accepted" means that the snapshot with the acceptance has been
written to flash; the event for the host may still be lost in a power cut. What is accepted is refused for good
(`Guarantees.AcceptedStaysRefused`): no slot of its generation, in RAM or as any restart restores it from flash, takes
that hour and number again.

## Assumptions

- `Node.InTurn`, the order of operations: none starts while a reservation, a frame or a text waits for its commit;
  `send_begin` runs with the radio on and nothing in flight; an identical retry only follows a queued emission; a commit
  that goes through with older bytes releases no text, and no frame whose number those bytes do not reserve.
- `Node.RevivesNothing`: no confirmation is imported again once something was sent under its root, or accepted that could
  come back. This holds by itself where nothing is staged over an activation (`PairingOnce.KeepingSuffices`).
- `Node.Lucky`, what randomness and key derivation give: an offer is fresh, and one root comes from one pair of offers.
- The runtime keeps all of `InTurn` by itself except for one kind of event: a reception that finds bytes left over from a
  USB operation that was answered at once. `Runtime.Enabled` says when an event is in order. This is exactly when all its
  actions keep the discipline (`RuntimeTrace.EnabledExactly`), and exactly when the node invariant survives it
  (`Leftover.InvSurvivesIff`), so that the discipline excludes no harmless event.
- The books of requests, transmissions and relays need none of this: they hold over every sequence of events.
- Ideal primitives, only where stated: `World.Unforged` (what opens was sealed by a node and sent, under the same key,
  nonce and associated data), `World.KeysSeparate` (no collisions among the keys of the roots in use),
  `World.OfferUnknown` and `World.RootSeparateAll` (offers and roots do not collide between nodes), `Ceremony.Correct`,
  `Ceremony.Sound` and `Ceremony.Symmetric` (signatures verify, sealing opens, key agreement is symmetric).
- A failed commit leaves either the old or the new record.

## Where the code falls short of a promise

- `Runtime::commit` prefers bytes already staged by the USB side, and operations answered at once (arming, provisioning,
  pairing records) leave such bytes behind (`Leftover.InlineLeavesBytes`). Which events then commit them in place of
  their own snapshot without harm, and which do not, is exact: `Leftover.ReceptionKeepsInvIff`. Ticks, sends and USB
  commands never do harm; a reception does if it takes in a new text, or sends an ACK that opens a new block of numbers.
  What it costs: `StaleCommit.StaleCommitReopensIff` is exact for a text (its number can be taken anew after a restart if
  and only if the older bytes do not cover it), `StaleCommit.StaleBytesDeliverTwice` is a run in which a text is delivered
  twice, and after such an ACK and a restart the next number is one already on air (`Leftover.NumberComesBack`).
- `commit_ok` ends the pairing attempt only when the activation itself is what was staged last. Which operations, staged
  over it, keep the attempt alive: `Guarantees.AttemptEndsIff`. The same confirmation can then be imported again within
  ten minutes, and its root starts over at number 0. `Guarantees.ReactivationSafeIff` says exactly when that is harmless,
  `Guarantees.UntouchedShows` how the slot shows it, and `Reactivation.ReactivationRepeatsNonce` is a run in which two
  different frames go out under one root and nonce.
- A second staging without a commit drops a staged reservation: `Guarantees.SecondStagingReadableIff` and
  `Guarantees.SecondStagingLosesReservation`.
- Importing a second offer keeps a proof made on the first one's terms (`PairingTerms.ReimportKeepsProof`). A peer accepts
  it exactly when the transcript is still the same (`PairingTerms.ReexportAcceptedIff`); otherwise the two are stuck
  (`PairingTerms.ReimportGetsStuck`), and neither ever activates before a new offer is made
  (`PairingTerms.StaleProofNeverActivates`).
- Policy generations wrap at 2^32: `Policy.TokenValidIff` is exact for every history, `Policy.WrapRevivesToken` shows a
  stale token honoured again, `Policy.TokenMeansAllowedSince` holds below the bound.
- The comment at firmware/src/runtime.rs:414 speaks of the send bound for the deleted slot; the code ends any send in
  flight. `RuntimeGuarantees.DeletionEndsAnySend` states what the code does.

## Model

| member | source | states |
|---|---|---|
| Guarantees.NonceUsedOnce | crates/mesh-node/src/engine.rs:583-1255 | over every disciplined run, pairings, failed commits and power cuts anywhere, two frames on air under one direction root and nonce are the same frame, byte for byte |
| Guarantees.OnAirBelowCounters | crates/mesh-node/src/engine.rs:1638-1654 | every number on air is below the RAM counter of its generation and below the reservation in flash, so a restart skips it |
| Guarantees.DeliveredAtMostOnce | crates/mesh-node/src/engine.rs:1354-1395 | no (generation, hour, number) is released to the host twice, over replays, hour rotations, restarts and new pairings |
| Guarantees.AckMeansAccepted | crates/mesh-node/src/engine.rs:1495-1553 | an ACK on air answers a number that this node has accepted, and that its RAM and whatever a restart makes of its flash refuse at every hour to come |
| Guarantees.AcceptedStaysRefused | crates/mesh-node/src/engine.rs:1345-1395 | in every state under the invariant, whatever was accepted is refused for good by every slot of its generation, in RAM and as restored from flash |
| Guarantees.AcceptanceReachesFlash | firmware/src/runtime.rs:821-852 | a commit in order that releases a text leaves flash with a slot of its generation, and that slot refuses the number for good |
| Guarantees.AttemptEndsIff | crates/mesh-node/src/engine.rs:1638-1654 | the commit of an activation ends the attempt unless one of the named operations was taken in between: time, radio, arming, identity, deletion, block bit, a begun send |
| Guarantees.ReactivationSafeIff | crates/mesh-node/src/engine.rs:932-1047 | a confirmation imported again restarts its root at number 0; the invariant survives exactly when nothing was sent under the root and everything accepted under it belongs to hours left behind for good |
| Guarantees.UntouchedShows | crates/mesh-node/src/engine.rs:1008-1047 | with number 0 next and empty windows in the slot that is so; with a marked number it is not |
| Guarantees.SnapshotRestores | crates/mesh-node/src/engine.rs:1662-1753 | every staged snapshot decodes, and restoring it gives the same identity, slots, anchors and windows with only the counter raised to the reservation |
| Guarantees.BootRestoresBytes | crates/mesh-node/src/engine.rs:1705-1753 | a restart never meets a record that it refuses |
| Guarantees.AcceptedHoursRetained | crates/mesh-core/src/clock.rs:36-40 | while time is trusted, the accepted hours are exactly those every slot keeps windows for |
| Guarantees.HourRotation | crates/mesh-node/src/engine.rs:452-521 | setting the time changes nothing or moves all anchors together; retained hours keep their windows, new ones are empty, retired ones stay retired |
| Guarantees.SecondStagingReadableIff | crates/mesh-node/src/engine.rs:1619-1625 | staging over a staged snapshot leaves a readable record exactly when no used number depends on the dropped reservation |
| Guarantees.SecondStagingLosesReservation | crates/mesh-node/src/engine.rs:1619-1693 | after an ACK that opened a new block, another staging makes the record unreadable |
| NodeRuns.RunInv | crates/mesh-node/src/engine.rs:583-1753 | after every disciplined run from blank flash the node invariant and the pairing invariant hold |
| NodePairing.PairStep | crates/mesh-node/src/engine.rs:583-1047 | every allowed action keeps this: each generation comes from one pair of offers, each slot in RAM, flash and leftover bytes from an activation, and only the slot of a live attempt may hold its peer |
| NodePairing.ActivationIsNew | crates/mesh-node/src/engine.rs:932-1047 | unless it repeats an earlier activation, an activation has a root under which nothing was sent or accepted |
| NodePairing.OtherSlots | crates/mesh-node/src/engine.rs:932-1047 | no slot but that of the attempt holds the root that it activates |
| PairingOnce.KeepingSuffices | crates/mesh-node/src/engine.rs:583-1047 | over every run that stages nothing over an activation, no confirmation revives a root: such runs are disciplined |
| NodeRuns.CommitInv | firmware/src/runtime.rs:166-196 | a commit in order keeps the invariant whether it writes the latest or older bytes, succeeds, loses a hand-over or fails with either content of flash |
| NodeRuns.CrashStep | crates/mesh-node/src/engine.rs:1705-1753 | a power cut at any point, even between staging and commit, keeps the invariant |
| NodeFrames.OnFrameStep | crates/mesh-node/src/engine.rs:1278-1445 | any received frame keeps the invariant, counting the ACK and text that it holds back as released |
| NodeFrames.SendEmitStep | crates/mesh-node/src/engine.rs:1144-1211 | an emitted frame takes a number that no frame of the generation has used |
| NodeFrames.BuildAckStep | crates/mesh-node/src/engine.rs:1495-1553 | an ACK takes an unused, reserved number and answers an accepted text |
| NodeFrames.SendBeginStep | crates/mesh-node/src/engine.rs:1088-1140 | beginning a send stages a reservation that covers its number, which no frame has used |
| NodeSteps.SetTimeStep | crates/mesh-node/src/engine.rs:452-521 | setting the time keeps accepted numbers spent and windows accounted for |
| NodeSteps.AdvanceTimeStep | crates/mesh-node/src/engine.rs:314-341 | so does the clock moving by itself, including into a new hour |
| NodeSteps.FloorBounds | crates/mesh-node/src/engine.rs:461-470 | the floor is above every anchor in use, so the inner rollback check never refuses |
| NodeSteps.DeleteStep | crates/mesh-node/src/engine.rs:1559-1571 | deletion leaves the guarantees of all other slots intact and drops only the send to that contact |
| NodeSteps.SetBlockedStep | crates/mesh-node/src/engine.rs:1574-1594 | blocking changes no counter or window and cancels only the send to that contact |
| NodeSteps.ActivateStep | crates/mesh-node/src/engine.rs:1008-1047 | activating an untouched root keeps the node invariant and all other slots |
| ContactLog.AcceptData | crates/mesh-node/src/engine.rs:1345-1395 | a number taken as new was never accepted under that root, and is spent afterwards |
| ContactLog.SpentIffNeverTaken | crates/mesh-node/src/engine.rs:1345-1395 | a number is spent exactly when no trusted hour from now on would take it as new |
| ContactLog.Advanced | crates/mesh-node/src/engine.rs:480-515 | moving the anchor forward never makes an accepted number acceptable again |
| ContactLog.Restored | crates/mesh-node/src/engine.rs:1719-1746 | restoring a slot changes nothing but the counters, which skip the whole block |
| StaleCommit.StaleCommitReopensIff | firmware/src/runtime.rs:166-196 | after a text is committed with older bytes and the board restarts, its number can be taken anew exactly when those bytes do not cover it |
| StaleCommit.StaleBytesDeliverTwice | firmware/src/runtime.rs:170-173 | a run, disciplined but for one commit of older bytes, in which the same frame is delivered before and after a restart |
| StaleCommit.OrderlyRunDelivers | firmware/src/runtime.rs:821-869 | a run that pairs, sets the time and delivers a text can meet the whole discipline |
| Reactivation.ReactivationRepeatsNonce | crates/mesh-node/src/engine.rs:1638-1654 | a run, disciplined but for one confirmation imported again after arming was staged over its activation: two different frames under one root and nonce |
| World.AckSound | crates/mesh-node/src/engine.rs:1396-1437 | under an adversarial network, an ACK that matches the pending send means that the other end has accepted exactly that hour, number, packet id and text, and refuses that number for good in RAM and after any restart |
| World.WorldRunInv | crates/mesh-node/src/engine.rs:1278-1445 | in every reachable world every node keeps its invariants, and what it took in or acknowledges its peer had sent |
| World.OneNodePerEnd | crates/mesh-node/src/engine.rs:689-744 | each end of a generation is at one node |
| World.Authentic | crates/mesh-node/src/engine.rs:1320-1344 | what a slot opens was sent by the other end of its generation with this header, hop count aside |
| Delivery.BegunSendEmits | crates/mesh-node/src/engine.rs:1088-1211 | a begun send whose reservation is committed is always emitted |
| Delivery.SealedFrameOpens | crates/mesh-node/src/engine.rs:1310-1344 | what one end seals, the other end decodes and opens, in every hour that it retains |
| Delivery.TextArrives | crates/mesh-node/src/engine.rs:1278-1395 | the frame of a pending send, heard at the peer through the whole receive path, is delivered as sent, with an ACK to go back |
| Delivery.ExchangeCompletes | crates/mesh-node/src/engine.rs:1144-1553 | from emission and commit through both receive paths: a new text is delivered as sent, and the ACK that comes back completes exactly the pending send |
| Delivery.CancelsExactlyItsSend | crates/mesh-node/src/engine.rs:1559-1594 | deleting or blocking ends exactly the send to that contact and touches no other slot |
| NodeEngine.SecureNode.constructor | crates/mesh-node/src/engine.rs:276-306 | a new engine is in the blank state |
| NodeEngine.SecureNode.StagePersist | crates/mesh-node/src/engine.rs:1619-1625 | the bytes in the scratch buffer are the encoding of the snapshot of this very state |
| NodeEngine.SecureNode.PendingBytes | crates/mesh-node/src/engine.rs:1627-1633 | what a caller commits is the encoding of the staged snapshot, and nothing when nothing is staged |
| NodeEngine.SecureNode.CommitOk | crates/mesh-node/src/engine.rs:1638-1654 | a commit applies exactly the staged reservation, or ends exactly the attempt whose activation was staged |
| NodeEngine.SecureNode.Restore | crates/mesh-node/src/engine.rs:1705-1753 | restoring in place equals restoring the decoded view, and refused bytes change nothing |
| NodeEngine.SecureNode.SetTimeConfirmed | crates/mesh-node/src/engine.rs:452-521 | the loops over slots and windows perform the rotation, with every refusal of the source |
| NodeEngine.SecureNode.MoveWindows | crates/mesh-node/src/engine.rs:480-508 | the loop over the three hours moves each window with its hour |
| NodeEngine.SecureNode.AdvanceTime | crates/mesh-node/src/engine.rs:314-341 | the clock moves, rotates or becomes untrusted exactly as the transition says |
| NodeEngine.SecureNode.SendBegin | crates/mesh-node/src/engine.rs:1088-1140 | all refusals in order, else a staged reservation and the pending send |
| NodeEngine.SecureNode.SendEmit | crates/mesh-node/src/engine.rs:1144-1211 | nothing is emitted before the commit; an emission consumes exactly one number |
| NodeEngine.SecureNode.SendRetryEcho | crates/mesh-node/src/engine.rs:1214-1255 | the retry is the frame of the pending send and changes no state |
| NodeEngine.SecureNode.Authenticate | crates/mesh-node/src/engine.rs:1310-1342 | the loop finds the first slot that authenticates and counts failures only when none does |
| NodeEngine.SecureNode.OnData | crates/mesh-node/src/engine.rs:1345-1395 | the three verdicts act on exactly one window, counter and staging |
| NodeEngine.SecureNode.OnAck | crates/mesh-node/src/engine.rs:1396-1437 | an ACK completes only the pending send that it names |
| NodeEngine.SecureNode.BuildAck | crates/mesh-node/src/engine.rs:1495-1553 | the ACK and the number that it consumes end up in one snapshot |
| NodeEngine.SecureNode.OnFrame | crates/mesh-node/src/engine.rs:1278-1445 | the whole receive path equals its transition |
| NodeEngine.SecureNode.Transit | crates/mesh-node/src/engine.rs:1456-1491 | transit forwards a frame not seen lately that has a hop left, and only that |
| NodeEngine.SecureNode.DeleteContact | crates/mesh-node/src/engine.rs:1559-1571 | the slot becomes empty and only its own send is dropped |
| NodeEngine.SecureNode.SetBlocked | crates/mesh-node/src/engine.rs:1574-1594 | the block bit changes and a cancelled send is reported |
| NodeEngine.SecureNode.ActivateContact | crates/mesh-node/src/engine.rs:1008-1047 | the slot holds a fresh contact anchored at the current hour |
| NodeEngine.SecureNode.PairOffer | crates/mesh-node/src/engine.rs:583-634 | the running offer again, or the refusals in order, else a new attempt for the first free slot |
| NodeEngine.SecureNode.ImportOffer | crates/mesh-node/src/engine.rs:689-744 | the loops over the contacts refuse a known peer and find the slot; transcript and role are fixed |
| NodeEngine.SecureNode.PairProof | crates/mesh-node/src/engine.rs:768-813 | the proof is made once and then repeated, with every refusal of the source |
| NodeEngine.SecureNode.ImportProof | crates/mesh-node/src/engine.rs:815-863 | the peer's proof is checked against its offer and opened, or refused without a change |
| NodeEngine.SecureNode.PairConfirm | crates/mesh-node/src/engine.rs:866-915 | the confirmation is made once and then repeated |
| NodeEngine.SecureNode.ImportConfirm | crates/mesh-node/src/engine.rs:932-1006 | every check of the confirmation in order, then exactly one new contact, staged |
| NodeEngine.SecureNode.PairImport | crates/mesh-node/src/engine.rs:661-687 | the guards in order, then the import that the record type names |
| Security.NonceInjective | crates/mesh-core/src/security.rs:108-113 | different (hour, number) pairs have different nonces |
| Security.AadBindsHeader | crates/mesh-core/src/security.rs:121-133 | associated data is equal exactly for equal headers up to the hop count, and equal lengths |
| Replay.WindowRefinesSet | crates/mesh-core/src/security.rs:238-268 | after any calls the bitmap is exactly membership of the last 64 numbers, and every verdict is the one the set of accepted numbers gives |
| Replay.AcceptedIffUncovered | crates/mesh-core/src/security.rs:238-268 | accepted exactly when not covered, duplicate exactly when marked, and a refusal changes nothing |
| Replay.ReplayWindow.Accept | crates/mesh-core/src/security.rs:238-268 | the in-place update equals the value transition |
| Replay.RestoreStored | crates/mesh-core/src/security.rs:291-303 | restoring gives a stored window back exactly when the record format allows it |
| Clock.AcceptedIffRetained | crates/mesh-core/src/clock.rs:36-40 | the accept window is membership in the three retained hours, at 0 and at the top too |
| Clock.AnchorHours.TrustedAdvance | crates/mesh-core/src/security.rs:355-380 | refuses exactly a step back; otherwise moves and reports the hours that are new |
| Clock.NewSlotsExact | crates/mesh-core/src/security.rs:355-380 | the reported hours are those retained after and not before, each once |
| Clock.RetiredStaysRetired | crates/mesh-core/src/security.rs:342-380 | an hour that has left the window never enters it again |
| Relay.RelayCache.Observe | crates/mesh-core/src/relay.rs:115-150 | the two passes over the array in place equal their specification |
| Relay.ObserveRefines | crates/mesh-core/src/relay.rs:115-150 | the cache refines a map from keys to expiries under nondecreasing time |
| Flood.SuppressedOnlyWhenRecent | crates/mesh-core/src/relay.rs:115-150 | over every run, a frame is suppressed only within 8000 ms of a sighting that let it through |
| Flood.LetThroughAgainOnlyWhen | crates/mesh-core/src/relay.rs:115-150 | a live key is forgotten only after 64 other keys at least as young were stored |
| Flood.OncePerLifetime | crates/mesh-core/src/relay.rs:115-150 | a frame let through is let through again within 8000 ms only after 64 other frames were sighted |
| Flood.FloodBounded | crates/mesh-core/src/relay.rs:115-150 | one frame sets off at most as many forwards within its lifetime as there are nodes, if none of them sights 64 others |
| Relay.PrepareForward | crates/mesh-core/src/relay.rs:186-200 | the rewritten buffer or the right refusal, leaving the rest of the buffer alone |
| Relay.ForwardIsTransparent | crates/mesh-core/src/relay.rs:186-200 | the forwarded frame decodes to the same header and body with the hop spent, and keeps the cache key input |
| Flood.ForwardSpendsTheHop | crates/mesh-node/src/engine.rs:1456-1491 | the engine forwards only frames with a hop left, and what it sends is that frame with the hop spent |
| Flood.ForwardIsLetThrough | crates/mesh-node/src/engine.rs:1456-1491 | the engine forwards only a frame that its cache lets through, and its cache follows the run of sightings |
| Flood.ForwardedOnce | crates/mesh-core/src/relay.rs:166-168 | no node in any state forwards a forwarded frame |
| Flood.ForwardsBounded | crates/mesh-core/src/relay.rs:166-200 | over any receptions by any nodes, forwards are at most the receptions of frames with a hop left |
| Flood.RelayedOpensAlike | crates/mesh-core/src/security.rs:121-133 | a receiver authenticates a relayed frame exactly as the original |
| Crc.Crc16 | crates/mesh-core/src/frame.rs:51-64 | the bitwise loop computes the checksum that the detection lemmas speak about |
| Crc.DetectsSingleByte | crates/mesh-core/src/frame.rs:51-64 | changing one byte of data of any length changes the checksum |
| Crc.DetectsAdjacentPair | crates/mesh-core/src/frame.rs:51-64 | so does changing two neighbouring bytes |
| Frame.DamagedFrameRejected | crates/mesh-core/src/frame.rs:100-140 | an accepted frame with one byte or two neighbouring bytes changed, checksum included, is rejected |
| Frame.DecodeEncoded | crates/mesh-core/src/frame.rs:66-140 | an encoded frame decodes to its fields exactly when they meet the decoder's limits |
| Frame.EncodeDecoded | crates/mesh-core/src/frame.rs:84-155 | every accepted frame is the encoding of what it decodes to |
| Frame.EncodeHeader | crates/mesh-core/src/frame.rs:66-82 | the header bytes or a refusal without a partial write |
| Frame.EncodeFrame | crates/mesh-core/src/frame.rs:84-98 | the encoded frame or a refusal without a partial write |
| Persist.EncodeInto | crates/mesh-node/src/persist.rs:185-228 | the cursor writes exactly the record of the view |
| Persist.DecodeView | crates/mesh-node/src/persist.rs:298-409 | the cursor reads exactly what the decoder specification says, error by error |
| Persist.DecodeEncoded | crates/mesh-node/src/persist.rs:185-409 | decoding an encoded view gives it back exactly when the view is storable, and refuses it otherwise |
| Persist.DecodedIsOk | crates/mesh-node/src/persist.rs:298-409 | everything the decoder accepts is storable, whichever version it came from |
| Persist.MigrationPreserves | crates/mesh-node/src/persist.rs:254-269 | migration accepts what decoding accepts, preserves contents, ends in a current record and is idempotent |
| Base64Url.EncodeInto | crates/mesh-core/src/pairing.rs:349-378 | the loop writes the encoding or refuses a short buffer untouched |
| Base64Url.DecodeInto | crates/mesh-core/src/pairing.rs:380-432 | the loop writes the decoding or gives the right error |
| Base64Url.DecodeEncoded | crates/mesh-core/src/pairing.rs:349-432 | decoding undoes encoding for any length |
| Base64Url.EncodeDecoded | crates/mesh-core/src/pairing.rs:380-432 | every accepted text is canonical: re-encoding gives it back |
| Base64Url.TransportRoundTrip | crates/mesh-core/src/pairing.rs:436-461 | every nonempty record survives the text transport |
| Base64Url.AcceptedTextIsCanonical | crates/mesh-core/src/pairing.rs:451-461 | every accepted transport text is the one spelling of a nonempty record |
| Base64Url.TransportEncodeInto | crates/mesh-core/src/pairing.rs:436-446 | the transport text in the buffer, or the right refusal with the buffer untouched |
| Base64Url.TransportDecodeInto | crates/mesh-core/src/pairing.rs:451-461 | the record in the buffer, or the refusal that comes first: prefix, length, room, characters and stray bits |
| Records.OfferRoundTrip | crates/mesh-core/src/pairing.rs:124-178 | an offer survives its payload and its record |
| Records.AcceptedOffer | crates/mesh-core/src/pairing.rs:169-190 | an accepted offer record has one spelling |
| Records.ProofRoundTrip | crates/mesh-core/src/pairing.rs:192-233 | a proof survives exactly when its role is one of the two |
| Records.AcceptedProof | crates/mesh-core/src/pairing.rs:208-233 | an accepted proof record has one spelling |
| Records.ConfirmationRoundTrip | crates/mesh-core/src/pairing.rs:236-271 | a confirmation survives exactly when its role is one of the two |
| Records.AcceptedConfirmation | crates/mesh-core/src/pairing.rs:251-271 | an accepted confirmation record has one spelling |
| Records.EndsAgree | crates/mesh-core/src/security.rs:49-58 | for different signing keys both ends order the offers alike and take opposite roles |
| Ceremony.AttemptsAgree | crates/mesh-node/src/engine.rs:689-764 | attempts holding each other's offers agree on transcript and root, with opposite roles |
| Ceremony.ActivatedEndsAgree | crates/mesh-node/src/engine.rs:932-1071 | if both ends activate, each one's outgoing key is the other's incoming key in every hour |
| Ceremony.CeremonyCompletes | crates/mesh-node/src/engine.rs:583-1047 | two willing boards that exchange their records both activate one new contact, as the two ends of one generation that know each other's identities |
| Ceremony.ActivationNeedsComparison | crates/mesh-node/src/engine.rs:661-687 | no import changes anything but the attempt, except a good confirmation with the spoken comparison, in time and with the radio off |
| Ceremony.WithOfferOk | crates/mesh-node/src/engine.rs:689-744 | importing an offer leaves an attempt whose transcript and role fit both offers, for a peer that no slot knows |
| Ceremony.OnlyOffersChangeTerms | crates/mesh-node/src/engine.rs:661-1006 | only importing an offer changes the terms of an attempt |
| PairingTerms.ReimportKeepsProof | crates/mesh-node/src/engine.rs:689-813 | after a proof is exported and another offer imported, the terms are the new ones and the export is still the proof of the old ones |
| PairingTerms.ReexportAcceptedIff | crates/mesh-node/src/engine.rs:768-863 | with correct primitives and transcripts that do not collide, a peer across the new terms accepts that proof exactly when it carries their transcript, that is, when the peer offer is the same |
| PairingTerms.ReimportGetsStuck | crates/mesh-node/src/engine.rs:689-813 | importing the offer of another board after exporting a proof, and meeting that board, leads to the stuck state |
| PairingTerms.StaleProofNeverActivates | crates/mesh-node/src/engine.rs:661-1006 | from there no exchange of what the two hand over activates a contact at either end |
| Json.StringRoundTrip | firmware/src/usb.rs:450-498 | for every valid UTF-8 text, reading the printed string gives its bytes back |
| Json.ReceivedRoundTrip | firmware/src/usb.rs:1354-1375 | a reader of the event recovers contact, hour, number and text |
| Json.ReceivedFits | firmware/src/usb.rs:1354-1375 | the event of any text up to 160 bytes fits the reply buffer |
| Json.EscapeLength | firmware/src/usb.rs:457-498 | printing a text takes at most six bytes for one |
| Json.JsonWriter.Raw | firmware/src/usb.rs:395-400 | appends when there is room and changes nothing otherwise |
| Json.JsonWriter.QuotedEscaped | firmware/src/usb.rs:457-498 | succeeds exactly when the printed string exists and fits, and appends it |
| Json.Digits | firmware/src/usb.rs:402-417 | the digit loop writes the decimal form |
| Json.DecimalReads | firmware/src/usb.rs:402-417 | a decimal form is read back as its number, whatever digits follow |
| Json.ReplyReceived | firmware/src/usb.rs:1354-1375 | renders the event exactly when the text is UTF-8 and there is room |
| Policy.PolicyGate.SetPolicy | firmware/src/radio.rs:182-205 | the loop over sixteen bits advances exactly the generations whose bit changed |
| Policy.PolicyGate.TxToken | firmware/src/radio.rs:155-171 | a token carries the generations of the moment it is minted |
| Policy.PolicyGate.TokenValid | firmware/src/radio.rs:216-245 | the gate check equals its specification |
| Policy.TokenValidIff | firmware/src/radio.rs:155-245 | for every history: honoured exactly when enabled now, no edge since minting modulo 2^32, and the contact's bit clear and not flipped modulo 2^32 |
| Policy.TokenMeansAllowedSince | firmware/src/radio.rs:155-245 | with fewer than 2^32 calls since minting: honoured exactly when the policy allowed the contact all the time |
| Policy.WrapRevivesToken | firmware/src/radio.rs:187-205 | after exactly 2^32 edges a token from before an off period is honoured |
| Transmit.DoTx | firmware/src/radio.rs:860-911 | triggers exactly when some attempt finds the channel clear after busy ones with every gate check passing; cancels exactly when a check finds the gate shut; waits double from the clamped jitter up to the cap |
| Transmit.TriggerAllowed | firmware/src/radio.rs:860-911 | a trigger follows a clear CAD of the same call and a check up to which the policy had allowed the contact since minting |
| Runtime.MaskFits | firmware/src/runtime.rs:294-302 | the block mask of sixteen slots fits the policy word |
| RuntimeBooks.BooksStep | firmware/src/runtime.rs:166-1202 | every event in every state keeps the books of requests, transmissions and relays |
| RuntimeFlow.FlowStep | firmware/src/runtime.rs:166-1202 | every event that can happen, whichever bytes it commits, leaves nothing held back, keeps the pending send that of the request in flight, and the cached policy that of the radio |
| RuntimeSteps.HandleInv | firmware/src/runtime.rs:166-1202 | every event in order keeps the discipline of the node and the flow of the runtime |
| RuntimeTrace.EnabledExactly | firmware/src/runtime.rs:166-196 | an event that can happen is in order exactly when every engine operation and commit in it keeps the discipline |
| Leftover.InvSurvivesIff | firmware/src/runtime.rs:166-196 | an event that can happen is in order exactly when the node invariant holds after it |
| Leftover.ReceptionKeepsInvIff | firmware/src/runtime.rs:821-869 | with bytes left over, a reception keeps the node invariant exactly when it takes in no new text and sends no ACK that opens a new block; without them it always does |
| Leftover.NumberComesBack | firmware/src/runtime.rs:821-869 | after such an ACK and a restart, the next number of the slot is one already on air |
| Leftover.TickFlushes | firmware/src/runtime.rs:129-140 | a tick that is not refused writes leftover bytes to flash; within the hour these are the latest snapshot, and an activation in it has ended its attempt |
| Leftover.InlineLeavesBytes | firmware/src/usb.rs:746-948 | an operation answered at once writes nothing to flash; what it stages waits on the USB side |
| RuntimeGuarantees.EveryRequestAccounted | firmware/src/runtime.rs:554-651 | over every sequence of events, every send request is answered once, dropped once or in flight |
| RuntimeGuarantees.OnlyRadioOffDrops | firmware/src/runtime.rs:1087-1141 | only switching the radio off or a restart drops a request |
| RuntimeGuarantees.AtMostThreeTransmissions | firmware/src/runtime.rs:953-1000 | over every sequence of events, a request made once is queued to the radio at most three times |
| RuntimeGuarantees.PendingIsInFlight | firmware/src/runtime.rs:554-651 | over every sequence of events that can happen, a pending engine send is the one in flight, and its contact and text are those asked for under the id to be answered |
| RuntimeGuarantees.DeadlinesEndTheSend | firmware/src/runtime.rs:953-1000 | from any state with at most three transmissions counted and without new requests, deadlines pass at most as often as transmissions remain, and then the send has ended |
| RuntimeGuarantees.SendEndsInTime | firmware/src/runtime.rs:692-1000 | if commands complete within d ms and passed deadlines are polled within p ms, a send is over three rounds of d + 12000 + p ms after its first transmission |
| RuntimeGuarantees.RelayedOnlyAsScheduled | firmware/src/runtime.rs:909-1029 | over every sequence of events, every relayed frame was scheduled, and is relayed no more often than it was scheduled |
| RuntimeGuarantees.RuntimeKeepsNodeInvariant | firmware/src/runtime.rs:129-1202 | nonce uniqueness, single delivery and honest ACKs hold for every run of runtime events in order, harmless commits of older bytes included |
| RuntimeGuarantees.AcknowledgedMeansAck | firmware/src/runtime.rs:853-866 | the host is told ACKNOWLEDGED only when the engine matched an ACK, and under the id of the send in flight |
| RuntimeWorld.BoardRunInv | firmware/src/runtime.rs:129-1202 | every reachable world of boards with runtimes keeps every board's invariant and the world's |
| RuntimeWorld.AcknowledgedMeansAccepted | firmware/src/runtime.rs:821-869 | end to end, over runs of many boards: ACKNOWLEDGED for a request means that the peer has accepted the text of that request and refuses its number for good |
| RuntimeGuarantees.MintedUnderEnginePolicy | firmware/src/runtime.rs:1077-1083 | over every sequence of events that can happen, a token is minted under the engine's policy, bit by bit |
| RuntimeGuarantees.DeletionEndsAnySend | firmware/src/runtime.rs:407-437 | deleting any contact answers the send in flight with BUSY, whichever contact it goes to |
| RuntimeObject.SendRuntime.CommitStaged | firmware/src/runtime.rs:166-196 | staged USB bytes win, success releases, failure faults the engine and closes the radio |
| RuntimeObject.SendRuntime.FailRadioClosed | firmware/src/runtime.rs:319-337 | the gate closes, the cache follows and the send in flight is answered |
| RuntimeObject.SendRuntime.SyncGate | firmware/src/runtime.rs:1077-1083 | the policy is written exactly when it differs from the cached one |
| RuntimeObject.SendRuntime.DriveSendPrep | firmware/src/runtime.rs:554-600 | every refusal in order, else two commits and the first transmission |
| RuntimeObject.SendRuntime.QueueTx | firmware/src/runtime.rs:602-651 | a queued frame starts the wait; a full queue ends the send |
| RuntimeObject.SendRuntime.TxCompleted | firmware/src/runtime.rs:692-752 | only the completion of the send's own command touches it, with the right answer |
| RuntimeObject.SendRuntime.FrameReceived | firmware/src/runtime.rs:821-907 | commit comes before ACK, delivery or completion; a forward takes the one relay slot |
| RuntimeObject.SendRuntime.ScheduleForward | firmware/src/runtime.rs:909-919 | the forward waits 100 to 300 ms, and replaces an older one |
| RuntimeObject.SendRuntime.PollTimeouts | firmware/src/runtime.rs:953-1029 | a passed deadline retries up to three transmissions and then reports UNCONFIRMED; a due forward is queued once, a full queue keeps it |
| RuntimeObject.SendRuntime.AdvanceClock | firmware/src/runtime.rs:129-140 | an hour change is committed, a refused clock closes the radio |

## Left out

- Internals of ChaCha20-Poly1305, SHA-256, HKDF, X25519 and Ed25519: library code, kept as function values.
- Zeroization and the label hint of a contact: memory hygiene and display only.
- The alias caches of `clock.rs` and the address refresh: the receive path derives addresses afresh, so they change no outcome.
- `sanitize_jitter_ms`, `cancel_on_dup`, `AliasCache::find_slot`, `pair_cancel`: not called on the live path.
- `set_radio_available` after a restore: whether the radio is there is fixed at power-up, and the arming flag that the source clears in RAM when it is missing keeps its stored value; nothing but `consume_boot_arm` reads it, which checks the radio itself.
- RuntimeObject.SendRuntime.FrameReceived: the node inside the runtime object is a value; the engine object is proved separately in `NodeEngine`.
- Runtime.Enabled: the runtime does not by itself establish that a reception finds no older bytes, nor that a confirmation is imported once; see Assumptions.
- PairingTerms.StaleProofNeverActivates: only the pairing calls of the two boards are steps; other operations, a restart or the end of the ten minutes can at most end an attempt.
- StaleCommit.StaleBytesDeliverTwice: a run of one node, on primitives chosen for the example.
- World.AckSound: no example run of two nodes is given; `Delivery.ExchangeCompletes` shows the exchange on any two matching states.
- The CAD ping and the counters of the runtime: no effect on sends, deliveries or ACKs.
- Barrier waits of the control paths: radio events inside them are ordinary events, the end of a radio-off is the event `RadioStopped`.
- Lossy hand-over of replies to USB: replies are counted when produced.
- SPI and LoRa driver calls, DIO0 timing, Embassy tasks, flash storage internals, WiFi, USB enumeration: foreign drivers.
- `settings.rs`, the WiFi credential record and `compat.rs`: fixed-size copies and display parsing that would only add easy members.
- `LineBuffer` and request parsing: input framing around a JSON library that is not part of this model.
- Surrogate pairs in the JSON reader: the printer never writes them.
