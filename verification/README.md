# A verified model of the room, battle and transport core

The server lets a handful of game clients share rooms, fight one battle together, and own items that
survive it. Its difficult code is stateful: dictionaries and counters updated in place by many handlers, read by
others that are only right because of what all of them keep. This project writes those handlers down as Dafny
classes with the same fields and branches, ties every method to a function of the old state, and proves what the
handlers promise together about those functions, over every run.

A component usually has three layers. A file of plain data and *step functions* says what each event does. A file
with a *class* whose methods update the fields in place is proved equal to the step functions, method by method
(`ensures View() == Step(old(View()), ...)`). The remaining files prove properties of `Run`, a fold of the step
function over an arbitrary list of events, so their statements hold for every interleaving and every length. The files
named after laws say what a single step does, on the fields of state and event alone and without the functions the step
is made of: exactly when it happens, exactly what it changes, and what it leaves as it was.

| component | files |
|---|---|
| Byte layouts, the 64-bit rotate/xor block codec, and both as arithmetic | Bytes, BlockCodec, BlockNumbers |
| The two incremental frame decoders and the encoder | Framing |
| Replay window, encrypted records, chunked reader and writer, concurrent admission | ReplayWindow, RecordLayer, Admission, RecordLaws |
| Datagram token buckets, buffer reservations, an engine's queue, connection leases | IngressBudget, IngressLaws, MemoryBudget, ConnectionLeases |
| The battle relay: events, rules, the room's battle state, delivery to members, delivery about actors and of their spawns | BattleEvents, BattleRules, BattleRoom, BattleDelivery, ActorDelivery, LifecycleDelivery |
| When a battle event is relayed, to whom, and what it leaves behind | RelayLaws, RelayEffects |
| Ledgers of a battle: receipts, reservations, projectiles, selections | BattleLedgers, ReceiptConservation, ReservationLedger, ProjectileLedger, SelectionLedger |
| The waiting room, the start, the barriers, the result | RoomState, RoomRules, SharedRoom, RoomLaws, RoomSeating, RoomBarriers, RoomStart, InformedStart, MatchStarts |
| Spawn ledgers of the two cooperative modes, and the HP of the foster mode | StageWaves, StageLaws, FosterGroups, FosterLaws |
| The path tree and the package index of the resource tool | RadixIndex, PackageIndex, PackageLaws |
| Purchases, gifts, mail attachments, instance ids | Commerce, CommerceStore, CommerceLaws, AnswerLaws |
| Sums over finite maps, shared by the above | MapSums |

## What the proofs settle about the code

- At most once holds on the generic lane for every interleaving of both transports, repeats, evictions and
  departures: the bounded cache together with the watermark never hands out what an unbounded record of deliveries
  would hold back. It is not claimed for motion of equal sequence, which the relay passes on deliberately.
- In the cooperative modes the Host also sends for its actors, whose filter is kept per actor. There one sequence of
  the Host may reach a fighter twice, for two actors. Per actor each event is handed out at most once in the foster
  mode; in the assault mode it may be repeated exactly after the actor was reborn with an older sequence. Spawns and
  removals of an actor are accepted in turn, by ever larger sequences, and whoever is handed an actor's event was told of
  the spawn of that life before, unless the Host told its peers of it directly.
- A member's event is relayed exactly when nothing speaks against it: no offence, which ends the connection, and no
  oddity, for which it is ignored. So an event above everything accepted from its sender always gets through when
  nothing but its sequence could be held against it.
- In the foster mode HP is the initial HP minus the hits of the present life wherever no clamp was met and rounding
  changes nothing; whatever the rounding, enough damage kills and no damage heals.
- `install` cannot run out of slots or keys, and the failing exits of its two searches are unreachable,
  because eight slots and two banks of four keys outlast the admitted capacities.
- A result report can still arrive when the room is waiting again, but only from somebody who was no fighter of that
  battle; the rosters named by the reports then differ, so it never produces a second result.
- A new item id differs from every id ever held, deleted ones included, if and only if the counter covers the ids in
  the store to begin with, which every use of the allocator keeps. A store holding an id above its counter can see that
  id again after the item has been deleted.
- What leaves a wallet is told by the receipts: without a sale the base price, on sale the lower of base and current
  price for a purchase and the current price for a gift.
- As numbers, a coded block is `8 * v % 2^64 + v / 2^61`, xored digit by digit with the number of its key.
- The two frame decoders agree exactly on the streams without a nonempty heartbeat; there one of them fails.
- The path-tree parser accepts a blob exactly when the tree is acyclic, in bounds, complete and unambiguous.

## Conventions

- Clocks, authenticated identities, P2P lease state, the availability of a stage plan and the verdicts of pure
  formulas are inputs of the step functions, so the theorems hold for all of their values.
- Tokens and times are `real`. Widths are written out where they matter: 64-bit words in the codec, 32-bit sequence
  and price bounds, the 1024-bit window (a natural number whose bits are tested and shifted).
- Cryptography appears as a pair of functions with the one law that opening undoes sealing (`RecordLayer.Lawful`).
  The uniqueness of nonces proved in `Admission` is the duty section 8 of NIST SP 800-38D puts on a caller; the
  window follows the technique of section 3.4.3 of RFC 4303.
- Set-like searches that the code makes in dictionary order keep that order (`order` in a room) where the result
  can depend on it.

## Model

| member | source | states |
|---|---|---|
| `BlockCodec.TransformInverse` | server/kk_local/wire.py:33-37 | one 64-bit step with a key is undone by the opposite step, in both directions |
| `BlockCodec.BlockInverse` | docs/protocol/reference_transport.py:30-43 | encoding and decoding a block-aligned buffer under one key undo each other, in either order |
| `BlockCodec.BlockMapAppend` | server/kk_local/wire.py:31-38 | the transform is local to blocks, so aligned pieces can be transformed separately |
| `BlockCodec.BlocksInto` | server/kk_local/wire.py:27-39 | the loop filling a byte buffer yields the block map of the data, and an error exactly for a bad key or unaligned length |
| `BlockNumbers.TransformNumber` | server/kk_local/wire.py:33-37 | as numbers, a block is rotated by 3 within 64 bits and xored with the key to encode, xored and rotated back to decode; rotation is multiplication by 8 with the three top digits added below |
| `BlockNumbers.KeyNumber` | docs/protocol/reference_transport.py:15-19 | the word of a key is the little-endian number of its eight bytes of text |
| `BlockNumbers.BlocksAreArithmetic` | server/kk_local/wire.py:27-39 | the transform is refused exactly for a bad key or a length that is no multiple of eight; otherwise the little-endian number of each output block is that arithmetic of the input block at its place |
| `BlockNumbers.MaskNumber` | server/kk_local/wire.py:48-48 | the length mask is the xor with 0xbbcc and the conjunction with 0x88aa, digit by digit |
| `Framing.DrainEncoded` | server/kk_local/wire.py:42-49 | an encoded frame followed by anything decodes to the message, and decoding goes on with the rest, for either decoder's rule |
| `BlockNumbers.HeaderIff` | docs/protocol/reference_transport.py:46-55 | a header is accepted exactly when magic, masked length and alignment fit and the frame stays within the limit, and gives the frame size its last four bytes name |
| `BlockNumbers.EncodeIff` | server/kk_local/wire.py:42-45 | an encoder refuses exactly an id or key out of range and a payload whose blocks do not fit the frame |
| `BlockNumbers.HeartbeatsWithDataAreRefused` | server/kk_local/wire.py:82-83 | the strict decoder stops at an encoded message exactly when it is a heartbeat that carries data; the lax one at none |
| `BlockNumbers.KnownFrame` | server/kk_local/wire.py:42-49 | the frame of the empty message 1 under key 0, byte by byte |
| `Framing.DrainAppend` | server/kk_local/wire.py:57-86 | parsing is incremental: what a prefix yields stands, and its unread rest continues with the bytes that follow |
| `Framing.StrictDrain` | server/kk_local/wire.py:82-83 | the nonempty-heartbeat rule changes the outcome exactly when such a heartbeat occurs, and then the strict parse fails |
| `Framing.GameDecoder.Feed` | server/kk_local/wire.py:57-86 | the loop over the mutable buffer yields the parse of buffer plus data, keeps the unparsed rest, and refuses only above the receive limit |
| `Framing.GameDecoder.Eof` | server/kk_local/wire.py:88-90 | end of stream is accepted exactly with an empty buffer |
| `Framing.StreamDecoder.Feed` | docs/protocol/reference_transport.py:102-125 | the cursor loop that takes a header and then a frame at a time yields the same parse of buffer plus data, and closes for good at the first error |
| `Framing.StreamDecoder.Eof` | docs/protocol/reference_transport.py:127-131 | end of stream is accepted exactly when nothing failed and nothing is buffered; otherwise the decoder is closed |
| `Framing.ReceiveLimitUnreached` | server/kk_local/wire.py:58-60 | a decoder between calls never holds a whole frame, so bounded reads cannot reach the receive limit |
| `Framing.ChunkingIrrelevant` | server/kk_local/wire.py:52-86 | cutting a stream into chunks changes neither messages, nor leftover, nor acceptance |
| `Framing.TwoDecodersAgree` | docs/protocol/reference_transport.py:92-131 | call by call the two decoders give the same results, or fail together, if and only if the stream carries no nonempty heartbeat |
| `Framing.DrainEncodedAll` | server/kk_local/wire.py:42-86 | a concatenation of encoded frames under any keys decodes to exactly the messages, with nothing left |
| `Framing.StreamRoundTrip` | docs/protocol/reference_transport.py:58-131 | both decoders invert the encoder for every list of messages, every key and every chunking, and end with empty buffers |
| `ReplayWindow.FreshIffNew` | server/kk_local/native_crypto.py:49-50 | the age and bit test passes exactly for sequences never accepted and less than 1024 below the highest |
| `ReplayWindow.CommitRefines` | server/kk_local/native_crypto.py:56-57 | after any jump, shift, mask and set leave the window an exact picture of the accepted set |
| `ReplayWindow.RunRefines` | server/kk_local/native_crypto.py:44-59 | for every arrival order the window state refines the set of accepted sequences |
| `ReplayWindow.WindowIsExact` | server/kk_local/native_crypto.py:48-57 | an arrival is accepted if and only if it is authentic, its sequence was not accepted before, and no accepted one is 1024 or more above it |
| `ReplayWindow.AcceptedOnce` | server/kk_local/native_crypto.py:48-57 | no sequence is accepted twice |
| `RecordLayer.InspectPacked` | server/kk_local/native_crypto.py:22-28 | reading back a well-formed packed header gives the header |
| `RecordLaws.InspectIff` | server/kk_local/native_crypto.py:22-28 | a header is read exactly when its 48 bytes hold the magic, a known channel and direction, a zero, a sequence below 2^32 and a size of 1 to 32768, and its fields are at their places |
| `RecordLayer.RecordState.Seal` | server/kk_local/native_crypto.py:39-43 | a record of the next sequence when length and key budget allow, and no change otherwise |
| `RecordLayer.RecordState.Open` | server/kk_local/native_crypto.py:44-59 | binding, replay or order check, authentication and only then the commit of replay state, as one function of packet and state |
| `RecordLaws.OpenIff` | server/kk_local/native_crypto.py:44-59 | a packet is opened exactly when it is bound to this end, in turn for its channel and authentic; then the receiving state moves on by that record, and otherwise nothing moves |
| `RecordLayer.RecordWriter.Write` | server/kk_local/native_crypto.py:87-88 | the loop over pieces appends exactly the sealed pieces to the raw stream, and stops where the key is used up |
| `RecordLayer.WriteIsSealAll` | server/kk_local/native_crypto.py:87-88 | a write succeeds exactly when the key has room for all its pieces, and then puts out the records of those pieces in order |
| `RecordLayer.BatchesAreSealed` | server/kk_local/native_crypto.py:85-88 | several writes are the records of all pieces of all batches, consecutively numbered |
| `RecordLayer.RecordReader.Read` | server/kk_local/native_crypto.py:64-75 | one read: refill from one record when the buffer is empty, then hand out and drop at most n bytes, with the errors of a truncated header or body |
| `RecordLayer.LawIsSatisfiable` | server/kk_local/native_crypto.py:43-53 | some pair of functions meets the sealing law, so the theorems that assume it are not empty |
| `RecordLayer.OpenSealed` | server/kk_local/native_crypto.py:39-59 | opening the peer's next record gives its plaintext and keeps both ends in step |
| `RecordLayer.StreamOrder` | server/kk_local/native_crypto.py:51-58 | a stream channel accepts only the record numbered next, so 0, 1, 2, ..., and a refusal changes nothing |
| `RecordLayer.ReadConserves` | server/kk_local/native_crypto.py:64-75 | a read succeeds, moves bytes from the front of the pending plaintext, and returns nothing only at the end |
| `RecordLayer.ReadAllConserves` | server/kk_local/native_crypto.py:61-75 | for any list of sizes, what was read followed by what is pending is what was written |
| `RecordLayer.StreamTransparent` | server/kk_local/native_crypto.py:61-88 | any batching and any read sizes deliver exactly the bytes written and end with empty buffers |
| `RecordLayer.EndToEnd` | server/kk_local/native_crypto.py:61-92 | encoder, writer, reader and decoder together deliver exactly the list of messages sent, and all buffers end empty |
| `Admission.NativeGrant.AcceptHeader` | server/kk_local/native_crypto.py:101-107 | accept up to the wait for the body: header checks and first replay/limit check, without a reservation |
| `Admission.NativeGrant.AcceptBody` | server/kk_local/native_crypto.py:108-114 | accept after the body: authentication, recheck and reservation in one step |
| `Admission.NativeGrant.SealOn` | server/kk_local/native_crypto.py:39-43 | a connection's record takes its next sequence, until the per-key bound |
| `Admission.NativeGrant.OpenDatagram` | server/kk_local/native_crypto.py:115-120 | the datagram records of a grant are created once, on first valid use |
| `Admission.NativeGrant.SealDatagram` | server/kk_local/native_service.py:112-113 | a datagram is sealed with the grant's one datagram counter |
| `Admission.NativeGrant.ReleaseGrant` | server/kk_local/native_admission.py:182-195 | a release forgets the reserved identities and the datagram records and ends the grant |
| `RecordLaws.BeginsIff` | server/kk_local/native_crypto.py:101-107 | on every run of a live grant an attempt starts waiting exactly with a client's first header on the right channel, a nonzero nonce nobody was admitted under, and fewer than 32 admitted |
| `RecordLaws.FinishesIff` | server/kk_local/native_crypto.py:108-114 | a waiting attempt is admitted exactly when its body is authentic, the grant still stands, and its identity is still untaken with fewer than 32 admitted; a refused attempt ends and takes nothing |
| `RecordLaws.SendsIff` | server/kk_local/native_crypto.py:39-43 | a record goes out exactly on an admitted connection below 2^32 records, and advances that connection's counter alone |
| `RecordLaws.DatagramsIff` | server/kk_local/native_crypto.py:115-120 | the datagram records begin exactly with the first client datagram of the zero nonce to a live grant, once, and count from nought |
| `Admission.RunInv` | server/kk_local/native_crypto.py:94-120 | what every interleaving of attempts, records, datagrams and releases keeps |
| `Admission.OneAdmissionPerIdentity` | server/kk_local/native_crypto.py:105-113 | however attempts interleave at their awaits, no two are admitted for one channel and connection nonce |
| `Admission.AdmissionsBounded` | server/kk_local/native_crypto.py:106-113 | at most 32 attempts of a grant are ever admitted |
| `Admission.NoncesUnique` | server/kk_local/native_crypto.py:39-43 | no two records the server seals under a grant share channel, direction, connection nonce and sequence |
| `Admission.ReleasedAdmitsNothing` | server/kk_local/native_admission.py:182-195 | after a release nothing is admitted, although the identity set is empty again |
| `IngressBudget.IngressBudget.AllowCall` | server/kk_local/native_udp_policy.py:32-42 | prune, evict, move to end, take from the row and, for unknown senders, from the global bucket: the whole new state and the verdict |
| `IngressLaws.UseTableIff` | server/kk_local/native_udp_policy.py:21-41 | a use of a table is admitted exactly when the sender has a whole token, counting the refill; the sender's row is then last with one token less, idle rows and at most the longest unused one are gone, all others as they were |
| `IngressLaws.BoundAdmittedIff` | server/kk_local/native_udp_policy.py:32-42 | a bound sender's datagram is admitted exactly when its own bucket of the bound rate and burst holds a token |
| `IngressLaws.UnknownAdmittedIff` | server/kk_local/native_udp_policy.py:32-42 | an unknown source is admitted exactly when both its own bucket and the global one hold a token |
| `IngressLaws.NewcomersGetThrough` | server/kk_local/native_udp_policy.py:34-42 | in every reachable budget a bound sender that is not in the table, or idle, is admitted |
| `IngressLaws.PacedSendersGetThrough` | server/kk_local/native_udp_policy.py:21-42 | in every reachable budget a bound sender who waited the time of one token since its last datagram is admitted |
| `IngressBudget.PruneRemovesExactlyIdle` | server/kk_local/native_udp_policy.py:34-34 | in order of use the front loop removes exactly the idle rows of the table, wherever they are |
| `IngressBudget.UseTableKeeps` | server/kk_local/native_udp_policy.py:33-41 | one use keeps a table distinct, in order of last use and within its limit |
| `IngressBudget.RunInv` | server/kk_local/native_udp_policy.py:28-42 | on a monotone clock both tables stay within their limits over every run |
| `IngressBudget.TablesIndependent` | server/kk_local/native_udp_policy.py:33-42 | calls with an owner leave the unknown side untouched, and the other way round |
| `IngressBudget.CallSpendsCredit` | server/kk_local/native_udp_policy.py:23-26 | an admitted unknown datagram costs at least one token of the global credit |
| `IngressBudget.UnknownWithinCredit` | server/kk_local/native_udp_policy.py:32-42 | from any reachable state, admissions are at most the present credit plus the refill |
| `IngressBudget.GlobalBound` | server/kk_local/native_udp_policy.py:21-42 | whatever sources appear, evict each other and return, unknown datagrams admitted in an interval are at most burst plus rate times elapsed time |
| `MemoryBudget.MemoryBudget.SetReservation` | server/kk_local/public_policy.py:84-94 | the new accounts of a granted reservation; a refused one changes nothing |
| `MemoryBudget.MemoryBudget.Release` | server/kk_local/public_policy.py:95-95 | a release always succeeds, forgets the owner and touches no other |
| `MemoryBudget.SetKeepsBalanced` | server/kk_local/public_policy.py:82-95 | used is the sum over owners, each group total the sum of its owners, both within their limits, after every granted set |
| `MemoryBudget.ShrinkSucceeds` | server/kk_local/public_policy.py:88-95 | a reservation that does not grow is never refused |
| `MemoryBudget.RefusedIff` | server/kk_local/public_policy.py:85-89 | a set is granted exactly when the sum over all owners, and that over the owner's group, stay within their limits |
| `MemoryBudget.SetEffect` | server/kk_local/public_policy.py:90-94 | a set gives the owner its size and touches no other owner |
| `MemoryBudget.Engine.Enqueue` | server/kk_local/engine.py:152-171 | capture, drop, fail or append; the engine's reservation is its bytes plus 24 per message, and no other engine's changes |
| `MemoryBudget.Engine.TakePending` | server/kk_local/engine.py:173-182 | hands over the whole queue in order and gives its reservation back |
| `MemoryBudget.Engine.CancelPending` | server/kk_local/engine.py:184-188 | removes exactly the messages of one id, keeps the order of the rest and shrinks the reservation to match, which cannot be refused |
| `MemoryBudget.Engine.DisconnectGame` | server/kk_local/engine.py:135-150 | empties the queue and gives its reservation back |
| `ConnectionLeases.ConnectionBudget.Acquire` | server/kk_local/public_policy.py:121-123 | refused exactly when the open pending leases, in all or of this peer, reach their limit; otherwise one fresh pending lease |
| `ConnectionLeases.Lease.Promote` | server/kk_local/public_policy.py:99-108 | a pending lease becomes the account's exactly when both counts of open leases allow it; a second account, or a closed lease, is an error |
| `ConnectionLeases.Lease.Release` | server/kk_local/public_policy.py:109-117 | closes the lease and takes it out of exactly the counters it is in; a second release changes nothing |
| `ConnectionLeases.AllReleased` | server/kk_local/public_policy.py:97-123 | once every lease is released all four counters are back at zero |
| `BattleRoom.BattleRoom.HandleHitReceipt` | server/kk_local/battle_receipts.py:40-93 | the ledgers after a receipt: the witness or follow-up right it spends, the right it creates, and the one recipient |
| `BattleRoom.BattleRoom.HandlePickup` | server/kk_local/battle_receipts.py:95-149 | the registry and watermark after a reservation event and its recipients |
| `BattleRoom.BattleRoom.HandleDeathNotice` | server/kk_local/battle_receipts.py:10-38 | only the watermark changes; a countdown goes to its player, a terminal notice to everybody else |
| `BattleRoom.BattleRoom.HandleRebornSync` | server/kk_local/battle_relay.py:86-115 | only the watermark changes, and everybody else receives the event |
| `BattleRoom.BattleRoom.HandlePairTransform` | server/kk_local/battle_pairs.py:51-78 | a lease that has run out is dropped, a passing transform leaves its lease in place |
| `BattleRoom.BattleRoom.HandleOwnedSlip` | server/kk_local/battle_pairs.py:9-29 | only the watermark changes, and everybody else receives the event |
| `BattleRoom.BattleRoom.ObservePairSelection` | server/kk_local/battle_pairs.py:31-49 | a newer selection sets or removes the sender's lease, bound to who was actually handed it |
| `BattleRoom.BattleRoom.RelayNpc` | server/kk_local/pve.py:141-172 | an event of an actor is refused, ignored, or recorded in that actor's filter and relayed to everybody else |
| `BattleRoom.BattleRoom.ActorEvent` | server/kk_local/pve.py:62-78 | a spawn or removal that is newer than the actor's last one changes its life and forgets its filters; any other changes nothing |
| `BattleRoom.BattleRoom.Lifecycle` | server/kk_local/pve.py:127-128 | an accepted spawn or removal goes to everybody but the Host, one that was only observed to nobody |
| `BattleRoom.BattleRoom.HandleOrdinary` | server/kk_local/battle_relay.py:143-288 | an ordinary event is refused, ignored or committed, and relayed to everybody else |
| `BattleRoom.BattleRoom.Execute` | server/kk_local/battle_relay.py:117-148 | the dispatch by event family, the actors of a cooperative battle first, gives the state and answer of one semantic execution |
| `BattleRoom.BattleRoom.Handle` | server/kk_local/engine.py:246-264 | the single-transport path: what observers send is dropped, everything else runs the handler once and observes the selection it carries |
| `BattleRoom.BattleRoom.DispatchPublic` | server/kk_local/battle_relay.py:23-84 | the whole dispatch, with the selection observed from those actually served |
| `BattleRoom.BattleRoom.Depart` | server/kk_local/room_lifecycle.py:147-175 | a spectator's departure takes every trace of theirs out of the battle, a fighter's ends it |
| `RelayLaws.OrdinaryReasons` | server/kk_local/battle_relay.py:143-288 | an ordinary event passes exactly when neither an offence nor an oddity holds of it, each a list of conditions on battle and event fields; it is refused only for an offence and ignored only for an oddity |
| `RelayLaws.ReceiptReasons` | server/kk_local/battle_receipts.py:40-93 | the same for hit receipts: payable by an older witness of the same source and skill or an older follow-up right |
| `RelayLaws.PickupReasons` | server/kk_local/battle_receipts.py:95-149 | the same for reservations: requests free, answers and completions by the Host or the approved holder |
| `RelayLaws.NoticeReasons` | server/kk_local/battle_receipts.py:10-38 | the same for death notices |
| `RelayLaws.RebirthReasons` | server/kk_local/battle_relay.py:86-115 | the same for snapshots and rebirths |
| `RelayLaws.TransformReasons` | server/kk_local/battle_pairs.py:51-78 | the same for pair transforms, whose lease must stand and be in time |
| `RelayLaws.SlipReasons` | server/kk_local/battle_pairs.py:9-29 | the same for slips |
| `RelayLaws.Reasons` | server/kk_local/battle_relay.py:117-148 | the same for every event of a member, whatever its family |
| `RelayLaws.ActorReasons` | server/kk_local/pve.py:141-172 | the same for the Host's events of actors |
| `RelayEffects.HandledIsRelayed` | server/kk_local/battle_relay.py:117-288 | an event against which nothing speaks is handed to the Host, the player concerned or all others as its kind says, and leaves watermark, motion, states, collectibles, projectiles, reservations, witnesses and follow-up rights changed exactly by what it says |
| `RelayEffects.HandledIsDropped` | server/kk_local/battle_relay.py:117-288 | any other is refused for an offence or ignored for an oddity, and leaves nothing |
| `RelayEffects.SelectionObserved` | server/kk_local/battle_pairs.py:31-49 | exactly a fighter's own newer selection with a generic header replaces that fighter's lease, which stands for fifteen seconds if the selected fighter was handed it |
| `RelayEffects.DispatchedIsRelayed` | server/kk_local/battle_relay.py:23-84 | a new event dispatched to some of the fighters is handed to those of its audience among them, recorded, and remembered with whom it reached |
| `RelayEffects.CurrentIff` | server/kk_local/battle_relay.py:41-58 | the gate of repeats on battle fields: no newer event came, the state still stands, the projectile lives |
| `RelayEffects.RepeatIsServed` | server/kk_local/battle_relay.py:41-80 | a repeat is handed exactly to the remembered audience it is aimed at and who lacks it, if it still describes the battle; otherwise nothing happens |
| `RelayEffects.DispatchedSelection` | server/kk_local/battle_relay.py:76-80 | a dispatched selection, new or repeated, replaces the sender's lease exactly when it is the sender's own newer one, still describes the battle, and selects nobody or somebody this very call was handed to |
| `RelayEffects.ActorIsRelayed` | server/kk_local/pve.py:141-172 | the Host's event of an actor against which nothing speaks goes to all other members and moves that actor's filter alone; any other changes nothing |
| `RelayEffects.LifeChangesIff` | server/kk_local/pve.py:62-78 | exactly when a spawn or removal of an actor is accepted, on battle fields |
| `RelayEffects.NewLifeIsFresh` | server/kk_local/pve.py:62-78 | an accepted one sets that actor's life and sequence and forgets its filters; no other actor's change |
| `RelayEffects.DepartureErases` | server/kk_local/room_lifecycle.py:147-175 | a spectator who leaves is named in no table any more, and every entry that does not name them stays |
| `RelayEffects.DepartureKeepsRights` | server/kk_local/room_lifecycle.py:147-175 | witnesses and follow-up rights of others stay, but for those about the one who left |
| `RelayEffects.FightersEndTheBattle` | server/kk_local/room_lifecycle.py:147-175 | a fighter who leaves ends the battle and changes nothing else |
| `RelayEffects.RunBacked` | server/kk_local/battle_relay.py:204-206 | in every reachable battle each watermark is the sequence of an event accepted from that sender on that lane |
| `RelayEffects.NewEventsGetThrough` | server/kk_local/battle_relay.py:188-206 | in every reachable battle a generic event whose sequence is above everything accepted from its sender is relayed to its audience and becomes the watermark, when nothing but a sequence could be held against it |
| `BattleDelivery.PassIsNewer` | server/kk_local/battle_relay.py:188-206 | whatever its family, an event that passes is newer than its sender's generic watermark |
| `BattleDelivery.StepKeeps` | server/kk_local/battle_relay.py:23-84 | every dispatch, direct call and departure keeps the delivery invariant |
| `BattleDelivery.RunKeeps` | server/kk_local/battle_relay.py:23-84 | in every reachable battle nothing handed out or cached is ahead of its watermark, and cached decisions remember exactly whom they were handed to |
| `BattleDelivery.AtMostOnce` | server/kk_local/battle_relay.py:23-84 | over a whole battle no recipient is handed two events of one sender with one generic sequence; in the cooperative modes this is said of what members do, their actors having filters of their own |
| `BattleDelivery.CacheBounded` | server/kk_local/battle_relay.py:72-74 | at most 128 decisions, never two about one payload |
| `BattleDelivery.RepeatReachesTheUnserved` | server/kk_local/battle_relay.py:41-78 | a repeat past the gate reaches exactly the original recipients it is aimed at whom no earlier event handed it; behind the gate, nobody |
| `BattleDelivery.RefusalChangesNothing` | server/kk_local/battle_relay.py:60-68 | a dispatch that ends in a protocol error leaves the battle unchanged |
| `BattleDelivery.RepeatExecutesNothing` | server/kk_local/battle_relay.py:24-31 | a whole dispatch of a repeated event changes nothing but the record of whom it was delivered to, and for a selection its lease |
| `BattleDelivery.RepeatedSelection` | server/kk_local/battle_relay.py:76-80 | a repeated selection touches only its sender's lease, and only to drop it or to point it at the target this very call was handed to |
| `ActorDelivery.PassesIff` | server/kk_local/pve.py:141-171 | an event of an actor is relayed exactly when it is the Host's, well formed, about a living actor and a known source, and newer than the actor's threshold |
| `ActorDelivery.RunKeeps` | server/kk_local/pve.py:141-172 | in every reachable cooperative battle nothing handed out about an actor is ahead of that actor's filter in its present life, in the foster mode in any life |
| `ActorDelivery.ActorsAtMostOnce` | server/kk_local/pve.py:165-171 | two events of one sender, actor and sequence are handed out only in the assault mode, in two lives of the actor of which the later began before that sequence; so in the foster mode at most once |
| `ActorDelivery.RepeatPassesIff` | server/kk_local/pve.py:150-169 | exactly when an actor's event that was handed out passes again: assault mode, living actor reborn since, sequence above everything of the new life |
| `ActorDelivery.TwoActorsShareASequence` | server/kk_local/pve.py:167-169 | a concrete battle in which one sender's sequence is handed to one fighter twice, for two actors |
| `ActorDelivery.ReappearanceRepeats` | server/kk_local/pve.py:62-78 | a concrete assault battle in which an actor reborn with an older sequence lets the same event through again |
| `LifecycleDelivery.RunKeeps` | server/kk_local/pve.py:127-128 | in every reachable cooperative battle the last notice about an actor is its present state, and went to every present member but the Host unless it was only observed |
| `LifecycleDelivery.LivesAlternate` | server/kk_local/pve.py:62-78 | over a whole battle the accepted notices about an actor are spawn and removal in turn, each with a larger sequence than all before it |
| `LifecycleDelivery.EventsFollowTheirSpawn` | server/kk_local/pve.py:141-172 | whoever is handed an event of an actor was told before of the spawn of that very life and of no removal since, unless that spawn was only observed |
| `BattleLedgers.StepWrites` | server/kk_local/battle_relay.py:117-288 | the ledgers change exactly by the commit of an accepted event, or by a departure |
| `BattleLedgers.AcceptedIsNewer` | server/kk_local/battle_relay.py:204-206 | an accepted event comes from a member and is newer than its watermark |
| `ReceiptConservation.ReceiptsSpendOwnWitness` | server/kk_local/battle_receipts.py:62-90 | on every run each accepted receipt, without exception, spends an older witness or follow-up right of its own source and skill that no earlier receipt spent |
| `ReceiptConservation.ReceiptsConserved` | server/kk_local/battle_receipts.py:62-90 | for each reporter, source and skill, all accepted receipts are the normal and the extra ones, normal receipts are at most the recorded reports, and extra ones at most the normal receipts of status 1 or 5 |
| `ReservationLedger.OneHolderPerKey` | server/kk_local/battle_receipts.py:127-137 | in every reachable battle at most one member holds a key approved, in each registry |
| `ReservationLedger.HolderCompletesAlone` | server/kk_local/battle_receipts.py:138-148 | while a member holds a key approved nobody else completes it, the Host included |
| `ReservationLedger.CompletionSpendsApproval` | server/kk_local/battle_receipts.py:138-148 | every completion by a member who is not the Host spends an approval the Host gave that member for that key, the newest act about the member |
| `ReservationLedger.CompletionsConserved` | server/kk_local/battle_receipts.py:127-148 | for each member who is not the Host and each key, completions are at most the Host's approvals |
| `ProjectileLedger.ProjectileLifetime` | server/kk_local/battle_relay.py:214-280 | over every run of a battle a child key never changes its owner, who is one of the fighters, and an ended projectile is never alive again |
| `ProjectileLedger.ForeignResultsAlternate` | server/kk_local/battle_relay.py:230-239 | between two results accepted from a member about somebody else's projectile lies a new hit report of that member |
| `SelectionLedger.TransformAnswersSelection` | server/kk_local/battle_pairs.py:51-78 | every relayed transform answers a selection of its second player, handed to that player less than fifteen seconds before |
| `SharedRoom.SharedRoom.Install` | server/kk_local/room_lifecycle.py:16-56 | no partial membership: the new member, the owner that may pass to it and all ready flags taken back, or no change |
| `SharedRoom.SharedRoom.Join` | server/kk_local/room_requests.py:131-150 | a join is refused while a member is suspended or without admission, and otherwise an install |
| `SharedRoom.SharedRoom.LeaveRoom` | server/kk_local/room_lifecycle.py:134-211 | an empty room closes, a running one aborts or, for a spectator, advances its barriers, a waiting one elects an heir and takes consents back |
| `SharedRoom.SharedRoom.Disconnect` | server/kk_local/room_lifecycle.py:68-78 | suspension in a waiting room, departure in any other |
| `SharedRoom.SharedRoom.RestoreBound` | server/kk_local/room_lifecycle.py:107-132 | a suspended member returns once its lease and those of the present members are live; otherwise nothing changes |
| `SharedRoom.SharedRoom.Expire` | server/kk_local/room_lifecycle.py:80-91 | deadline, seat exchange and network probe of one room |
| `SharedRoom.SharedRoom.ExpireSuspended` | server/kk_local/room_lifecycle.py:92-96 | a suspended member past the deadline leaves |
| `SharedRoom.SharedRoom.UpdateSettings` | server/kk_local/room_requests.py:151-165 | the owner's update patches watch option, duration and the uninterpreted rest of a waiting room's request and takes every consent back, or changes nothing |
| `SharedRoom.SharedRoom.SetTeam` | server/kk_local/room_requests.py:166-182 | team and key change together, or not at all when the bank is full |
| `SharedRoom.SharedRoom.RemoveMember` | server/kk_local/room_requests.py:183-194 | the owner removes another member of the room |
| `SharedRoom.SharedRoom.TransferOwner` | server/kk_local/room_requests.py:195-219 | the owner hands over to a present fighter with a live lease |
| `SharedRoom.SharedRoom.ToggleSpectator` | server/kk_local/room_flow.py:125-153 | the changed role with its seat, all consents taken back, and a fighter as owner if there is one |
| `SharedRoom.SharedRoom.StartMatch` | server/kk_local/room_flow.py:54-83 | all per-battle sets emptied, everybody loading, or an error without a stage plan |
| `SharedRoom.SharedRoom.BeginStart` | server/kk_local/room_flow.py:21-31 | the match starts, or the first probe is recorded with the present identity |
| `SharedRoom.SharedRoom.NetworkDelayReply` | server/kk_local/room_flow.py:33-52 | an answer cancels a broken probe, is counted, or as the last one starts the match |
| `SharedRoom.SharedRoom.SetReady` | server/kk_local/room_flow.py:198-226 | a consent, or for the owner of a balanced room with all others ready also the start |
| `SharedRoom.SharedRoom.UnsetReady` | server/kk_local/room_flow.py:204-207 | a consent taken back |
| `SharedRoom.SharedRoom.StartTutorial` | server/kk_local/tutorial.py:75-81 | the private tutorial starts on its only member's ready |
| `SharedRoom.SharedRoom.AdvanceBarriers` | server/kk_local/room_flow.py:85-123 | the three barriers, one after the other, each letting the next one pass in the same call |
| `SharedRoom.SharedRoom.LoadDone` | server/kk_local/room_flow.py:227-234 | a member has loaded and the barriers are advanced; an error exactly outside the loading stage or without a room, unless the member had loaded before |
| `SharedRoom.SharedRoom.InputDone` | server/kk_local/room_flow.py:235-244 | a fighter is ready for input and the barriers are advanced; an error exactly outside that stage or without a room, unless it is a repeat or an observer |
| `SharedRoom.SharedRoom.AcknowledgeResult` | server/kk_local/battle_results.py:77-83 | an acknowledgement of a result the member was sent, and the barriers are advanced |
| `SharedRoom.SharedRoom.ReportResult` | server/kk_local/battle_results.py:84-147 | a first report of a fighter is kept; the last one ends the battle if all name the same fighters and the verdict agrees |
| `SharedRoom.SharedRoom.ReceivePositions` | server/kk_local/pve.py:117-122 | the Host's positions count only while the Host is loading in the foster mode |
| `SharedRoom.SharedRoom.FinishStage` | server/kk_local/pve.py:183-208 | the Host's first finish report the stage object agrees with ends a cooperative battle |
| `SharedRoom.SharedRoom.HandleExchange` | server/kk_local/seat_exchange.py:24-61 | one exchange message on the room |
| `RoomLaws.CreatesRoom` | server/kk_local/room_requests.py:101-115 | a new room holds its creator and owner in slot 0 of team 0 with key 0; without a bound lease it stays empty |
| `RoomLaws.JoinsInstalls` | server/kk_local/room_requests.py:131-150 | a join is carried out exactly when nobody is suspended, the sender is admitted with a bound lease and there is a place and seat; it adds one member with a free seat, changes nobody else's, and the ownership passes exactly from an observer to a fighter who comes |
| `RoomLaws.HandsMovesOwnership` | server/kk_local/room_requests.py:195-219 | the owner becomes the named fighter exactly when the owner hands over to another fighter who is present with a bound lease in a waiting room; nobody's seat changes and all consents end |
| `RoomLaws.MovesChangesTeam` | server/kk_local/room_requests.py:166-182 | exactly when a fighter of a waiting team room asks for the other team and it has a free key, that fighter has the team and the free key, everybody else the seat they had |
| `RoomLaws.ChangesPatches` | server/kk_local/room_requests.py:151-165 | a real update by the owner sets watch option, duration and rest to what it says and ends all consents; any other changes nothing |
| `RoomLaws.RemovesDeparts` | server/kk_local/room_requests.py:183-194 | a removal by the owner takes exactly the named member out of room and order |
| `RoomLaws.TogglesRole` | server/kk_local/room_flow.py:125-153 | a change of role gives exactly that member the other role with a free seat or none, and passes the ownership on exactly where the owner would be an observer among fighters |
| `RoomLaws.AskExchanges` | server/kk_local/seat_exchange.py:24-61 | asking for an empty seat takes it at once; asking for an occupied one records the exchange for thirty seconds and changes no seat |
| `RoomLaws.AnswerExchanges` | server/kk_local/seat_exchange.py:24-61 | the asked member's assent gives the two each other's key and team and nobody else another; a refusal ends the exchange |
| `RoomLaws.HeirIs` | server/kk_local/room_lifecycle.py:203-205 | the heir has the least slot among the fighters, or among all members if none fights, and of equal ones joined first |
| `RoomLaws.LeaveDeparts` | server/kk_local/room_lifecycle.py:134-211 | a departure takes exactly that member out; the last closes the room, a fighter aborts a battle, and a waiting room without its owner goes to the heir |
| `RoomLaws.DepartsDeparts` | server/kk_local/room_requests.py:220-228 | the same for a departure that was asked for |
| `RoomLaws.DropsSuspends` | server/kk_local/room_lifecycle.py:68-78 | a lost connection suspends a member of a waiting room until the reconnect deadline, and is a departure anywhere else |
| `RoomLaws.BindsRestores` | server/kk_local/room_lifecycle.py:107-132 | exactly when its own lease and those of all present members are bound a suspended member is placed again |
| `RoomLaws.TickExpires` | server/kk_local/room_lifecycle.py:80-91 | a public battle past its deadline ends with its owner's departure; otherwise exactly an exchange or probe past its time, or of a room that has changed since, is ended |
| `RoomLaws.TickMemberExpires` | server/kk_local/room_lifecycle.py:92-96 | a suspended member departs exactly when the time has run out |
| `RoomLaws.ReadiesNotes` | server/kk_local/room_flow.py:198-226 | a ready sets exactly one consent, or, of the owner with all others' consents and fair teams, begins the start |
| `RoomLaws.UnreadiesNotes` | server/kk_local/room_flow.py:204-207 | a withdrawal clears exactly one consent |
| `RoomLaws.TutorialSteps` | server/kk_local/tutorial.py:75-81 | the tutorial of one begins with its member's ready |
| `RoomLaws.AnswersCount` | server/kk_local/room_flow.py:33-52 | an answer of a pending member is counted once, cancels a probe that was upset, and as the last one starts the match |
| `RoomLaws.StartStarts` | server/kk_local/room_flow.py:54-83 | a start empties every set of the last battle and has everybody loading; without a plan nothing happens |
| `RoomLaws.AdvanceMoves` | server/kk_local/room_flow.py:85-123 | the barriers as one statement: everybody loaded, every fighter input ready, every member acknowledged; each moves all phases together and one call may pass several |
| `RoomLaws.LoadsCounts` | server/kk_local/room_flow.py:227-234 | a member is noted as loaded once, while loading, and the barriers follow |
| `RoomLaws.InputsCounts` | server/kk_local/room_flow.py:235-244 | a fighter is noted as input ready once, and the barriers follow |
| `RoomLaws.AcknowledgesCounts` | server/kk_local/battle_results.py:77-83 | an acknowledgement is noted once, and the barriers follow |
| `RoomLaws.PlacesNotes` | server/kk_local/pve.py:117-122 | the loading Host's positions are noted, and nothing else changes |
| `RoomLaws.ReportsEnds` | server/kk_local/battle_results.py:84-147 | a fighter's first report is kept; the last one ends the battle exactly when the first of all named the same fighters and the verdict agrees |
| `RoomLaws.FinishesEnds` | server/kk_local/pve.py:183-208 | the Host's first finish the stage object agrees with ends the battle, and every member is sent the result |
| `RoomLaws.OthersKeepPlaces` | server/kk_local/rooms.py:209-251 | no other event changes who is in the room, the owner, or any role, team, slot or key |
| `RoomSeating.SlotAvailable` | server/kk_local/room_lifecycle.py:26-26 | with fewer than eight fighters the slot search succeeds with a slot nobody has |
| `RoomSeating.KeyAvailable` | server/kk_local/room_lifecycle.py:27-31 | with fewer than eight fighters one of the two banks has a free key |
| `RoomSeating.SeatAlwaysFound` | server/kk_local/room_lifecycle.py:23-31 | below capacity install always finds a slot and a key of its own, in the bank of the team it gives |
| `RoomSeating.HeirIsCandidate` | server/kk_local/room_lifecycle.py:203-205 | the heir is a member, a fighter if there is one, and then of least slot |
| `RoomSeating.SwapSeats` | server/kk_local/seat_exchange.py:53-56 | exchanging keys and teams together keeps all keys distinct and in the bank of their team |
| `RoomSeating.StepSeated` | server/kk_local/rooms.py:209-251 | every room event keeps the seating invariant |
| `RoomSeating.RunSeated` | server/kk_local/room_lifecycle.py:16-211 | in every reachable room: slots and keys distinct and in range, keys in their team's bank, at most capacity fighters, members, joining order and placed engines agree, the owner a member and a fighter whenever there is one |
| `RoomSeating.ModeAndCapacityFixed` | server/kk_local/packets.py:129-135 | no run changes mode or capacity, updates having no bytes for them |
| `RoomBarriers.AdvanceSettles` | server/kk_local/room_flow.py:85-123 | after an advance no barrier is enabled, whatever was before |
| `RoomBarriers.StepRuns` | server/kk_local/room_flow.py:85-123 | every room event keeps barriers, progress, phases and standing results in step |
| `RoomBarriers.RunRunning` | server/kk_local/room_flow.py:85-123 | that invariant over every run |
| `RoomBarriers.NoLostBarrier` | server/kk_local/room_flow.py:85-123 | in every reachable room no enabled barrier is left waiting, even when a spectator was the last one missing and left |
| `RoomBarriers.BarriersPassed` | server/kk_local/room_flow.py:89-105 | past loading, loaded is exactly the members, and past input readiness exactly the fighters are input ready |
| `RoomBarriers.LiveWhilePlaying` | server/kk_local/room_flow.py:81-104 | outside the waiting stage nobody is suspended and every member's connection is in the phase of the stage |
| `RoomBarriers.NoSecondResult` | server/kk_local/battle_results.py:84-118 | in every reachable waiting room a late report brings no second result |
| `RoomStart.StepConsents` | server/kk_local/room_flow.py:145-148 | any event of a waiting room that changes roster, role, team, seat, owner or settings takes every consent back |
| `RoomStart.ReadyEffects` | server/kk_local/room_flow.py:198-226 | a ready either marks one consent, or begins a start with every fighter ready and nobody suspended |
| `RoomStart.AnswerEffects` | server/kk_local/room_flow.py:33-52 | a probe answer starts the match only with the captured identity, in time, with everybody present, and as the last one pending |
| `RoomStart.ReturnHushes` | server/kk_local/room_flow.py:106-118 | a room that returns from a battle has nobody ready |
| `RoomStart.SameIdentityIff` | server/kk_local/rooms.py:116-119 | two start identities are equal exactly when owner, settings, roster and every member's connection, seat, role and ready flag are |
| `InformedStart.ReadyMeansConsent` | server/kk_local/room_flow.py:198-226 | in every reachable waiting room a ready flag was set by an event of that very member, has stood ever since, and the line-up has not changed since |
| `InformedStart.StartIsInformed` | server/kk_local/room_flow.py:21-83 | outside the tutorial a match starts only when every fighter is ready by an own event after the latest change of roster, role, team, seat, owner or settings, and nobody is suspended |
| `InformedStart.RunTraced` | server/kk_local/room_flow.py:29-52 | every probe in progress goes back to a ready of the room's owner that began it, and everybody no longer pending gave an answer that was counted |
| `InformedStart.StartIsMeasured` | server/kk_local/room_flow.py:33-52 | with the probe enabled a match starts only with the identity captured at the owner's request, and after every fighter of that moment gave a counted answer within ten seconds |
| `MatchStarts.DuelStarts` | server/kk_local/room_flow.py:208-226 | a concrete room of two in which the theorem on informed starts applies: join, two readies, and the match starts |
| `MatchStarts.MeasuredDuelStarts` | server/kk_local/room_flow.py:27-52 | the same room with the probe: it starts on the second answer |
| `StageWaves.StageBattle.SpawnEvent` | server/kk_local/pve.py:62-78 | a spawn is accepted exactly within its template's quota, for an unknown or removed actor |
| `StageWaves.StageBattle.RemoveEvent` | server/kk_local/pve.py:62-78 | a removal is accepted exactly for a living actor and a newer sequence |
| `StageWaves.StageBattle.ReportWave` | server/kk_local/pve.py:87-95 | a wave ends exactly when its quotas are met and nobody is alive, and names the next wave |
| `StageWaves.StageBattle.BlockChanged` | server/kk_local/pve.py:80-85 | the newest state of at most 1024 blocks |
| `StageWaves.RunInv` | server/kk_local/pve.py:50-95 | what every run of a stage keeps |
| `StageWaves.SpawnsConserved` | server/kk_local/pve.py:66-95 | per template, accepted spawns are the quotas of the completed waves plus the present counter |
| `StageWaves.ActiveConserved` | server/kk_local/pve.py:62-78 | living actors plus removals are the accepted spawns |
| `StageWaves.FinishedMeansExactlyPlanned` | server/kk_local/pve.py:87-95 | a finished stage has spawned exactly the plan and removed everybody |
| `StageWaves.QuotaRespected` | server/kk_local/pve.py:68-70 | no template exceeds its quota within a wave |
| `StageLaws.SpawnCounts` | server/kk_local/pve.py:62-78 | exactly when a spawn counts, and that its template then has one more and the actor lives |
| `StageLaws.RemoveTakesOut` | server/kk_local/pve.py:62-78 | exactly when a removal counts, and that it takes that actor alone out |
| `StageLaws.ReportMovesOn` | server/kk_local/pve.py:87-95 | the report of the present wave is taken exactly when every quota is met and nobody lives; then the next wave starts from nothing or the stage is finished |
| `StageLaws.BlockTakesNewest` | server/kk_local/pve.py:80-85 | a known block takes newer states alone, a new one while there are fewer than 1024 |
| `StageLaws.ClearedWaveEnds` | server/kk_local/pve.py:62-95 | a wave with its quotas met and one actor left is never stuck: removing that actor lets its report through |
| `FosterGroups.FosterBattle.Trigger` | server/kk_local/foster.py:41-43 | exactly the groups whose box holds the point are marked in addition |
| `FosterGroups.FosterBattle.ActorAppears` | server/kk_local/foster.py:70-97 | an accepted spawn advances its group's plan by one and brings a healthy actor |
| `FosterGroups.FosterBattle.ActorVanishes` | server/kk_local/foster.py:90-97 | a removed corpse retires in its group, a removed living actor does not |
| `FosterGroups.FosterBattle.RelayActor` | server/kk_local/pve.py:141-172 | an event of a living actor newer than its versions, with the clamped HP of a hit |
| `FosterGroups.FosterBattle.BlockEvent` | server/kk_local/foster.py:64-68 | a gate opens only behind complete groups, and then follows the block rule |
| `FosterGroups.FosterBattle.ReceivePositions` | server/kk_local/foster.py:45-54 | the first snapshot that permutes the scripted places is taken, and triggers from all of them |
| `FosterGroups.FosterBattle.PlayerPosition` | server/kk_local/foster.py:104-107 | a newer position of a player triggers |
| `FosterGroups.FosterBattle.Finish` | server/kk_local/pve.py:129-136 | the first newer finish is taken |
| `FosterGroups.StepFollowsPlan` | server/kk_local/foster.py:82-88 | a step advances a group's counter exactly for the next planned entry |
| `FosterGroups.SpawnsFollowPlan` | server/kk_local/foster.py:82-89 | the k-th accepted spawn of a group is its k-th planned entry, on every run |
| `FosterGroups.SpawnsConserved` | server/kk_local/foster.py:56-97 | per group, spawned are the retired, the active and those removed alive |
| `FosterGroups.ActorsBounded` | server/kk_local/foster.py:74-80 | active actors, corpses included, stay within the global limit, known ones within a hundred |
| `FosterGroups.CompleteMeansNoneEscaped` | server/kk_local/foster.py:56-60 | a complete group has spawned its whole plan and lost nobody alive |
| `FosterGroups.GatesOpenBehindTheDead` | server/kk_local/foster.py:64-68 | a gate opens only when all its groups appeared in full and none was removed alive |
| `FosterGroups.CompleteBattle` | server/kk_local/foster.py:62-62 | a complete battle means the same of every group |
| `FosterLaws.AppearsIff` | server/kk_local/foster.py:70-97 | a spawn is accepted exactly when it is new and exactly one triggered group with room plans it next; it brings one actor of that group with its initial HP |
| `FosterLaws.VanishesIff` | server/kk_local/foster.py:90-97 | a removal is accepted exactly for an active actor and a newer sequence, and counts as retired exactly at HP zero |
| `FosterLaws.RelaysIff` | server/kk_local/pve.py:141-172 | an event of an active actor newer than its filter moves the filter; a hit moves that actor's HP down by the damage and not below zero, healing up and not above the initial HP |
| `FosterLaws.BlocksIff` | server/kk_local/foster.py:64-68 | a gate opens exactly when every group behind it is finished and its sequence is newer |
| `FosterLaws.WalksIff` | server/kk_local/foster.py:104-107 | a newer position triggers exactly the groups whose box it lies in |
| `FosterLaws.PlacesIff` | server/kk_local/foster.py:45-54 | the first snapshot that permutes the scripted places is taken and triggers for every point |
| `FosterLaws.FinishesIff` | server/kk_local/pve.py:129-136 | a finish is taken exactly once and newer than any before |
| `FosterLaws.RunSound` | server/kk_local/foster.py:99-102 | on every run HP stays between zero and the initial HP of the actor |
| `FosterLaws.HitsHurt` | server/kk_local/foster.py:99-102 | in every reachable battle damage of at least the HP kills, damage never raises and healing never lowers HP, and nobody else's changes |
| `FosterLaws.HpIsInitialMinusHits` | server/kk_local/foster.py:88-102 | on every run, where rounding changes none of the HPs the hits lead through: HP is the initial HP minus the sum of the hits since the spawn while no clamp was met, and under damage alone it is that difference or zero once the sum reaches the initial HP |
| `FosterLaws.SlainGroupIsComplete` | server/kk_local/foster.py:56-60 | a group whose planned actors all appeared, none removed alive, is complete once all that are left took at least their initial HP |
| `RadixIndex.TreeReader.WalkNode` | tools/resource-recovery/spf2_index.py:76-110 | the recursive walk that mutates leaves and offset sets gives the specified result or error, restores its active set and terminates on every blob |
| `RadixIndex.TreeReader.Parse` | tools/resource-recovery/spf2_index.py:71-119 | the walk from the root and the comparison with the expected indexes |
| `RadixIndex.FreeShrinks` | tools/resource-recovery/spf2_index.py:77-90 | the measure of termination: each node entered is one fewer offset not yet active |
| `RadixIndex.WalkTruthful` | tools/resource-recovery/spf2_index.py:91-109 | a successful walk has recorded exactly the texts of the routes below its node |
| `RadixIndex.WalkClear` | tools/resource-recovery/spf2_index.py:77-84 | a successful walk has met no cycle and no node out of bounds |
| `RadixIndex.WalkComplete` | tools/resource-recovery/spf2_index.py:76-110 | a walk over an acyclic, in-bounds and unambiguous part does succeed |
| `RadixIndex.ParserAcceptsExactlyWellFormed` | tools/resource-recovery/spf2_index.py:71-119 | the parser accepts a blob if and only if the tree is well formed: acyclic, in bounds, unambiguous and naming exactly the entries |
| `RadixIndex.ParsedPaths` | tools/resource-recovery/spf2_index.py:98-109 | all routes to an entry, shared nodes included, spell the text the parser returns for it |
| `RadixIndex.ParsedNodes` | tools/resource-recovery/spf2_index.py:89-119 | the node count is that of the nodes reachable from the root |
| `PackageLaws.LeafBytes` | tools/resource-recovery/spf2_index.py:100-101 | a target is a leaf exactly when its last byte is 255, and then its first three number the entry |
| `PackageLaws.NodeBytes` | tools/resource-recovery/spf2_index.py:79-87 | a node is a record count and that many records of twelve bytes, all inside the tree |
| `PackageLaws.RecordBytes` | tools/resource-recovery/spf2_index.py:91-98 | a record is eight bytes of text without their trailing zeros, and four bytes of target |
| `PackageIndex.ParseIndex` | tools/resource-recovery/spf2_index.py:122-165 | the checks of the index in their order, rows read in a loop |
| `PackageIndex.AcceptedPackageIsTiled` | tools/resource-recovery/spf2_index.py:134-162 | an accepted file is what precedes the first payload, the payloads with trailers, the path tree and two equal tables, and nothing else |
| `PackageIndex.EntriesDisjoint` | tools/resource-recovery/spf2_index.py:152-162 | no two data regions overlap, and they lie in index order |
| `PackageIndex.EveryEntryHasOnePath` | tools/resource-recovery/spf2_index.py:164-174 | every entry has exactly one path |
| `PackageLaws.AssembledPackageParses` | tools/resource-recovery/spf2_index.py:122-165 | a round trip: a file put together from a head naming its parts, regions, a well-formed path tree and the table twice is accepted and read back with exactly these rows |
| `CommerceStore.StoreFile.DebitLocked` | server/kk_local/shop.py:61-66 | a debit happens exactly when the balance covers it, by exactly the cost |
| `CommerceStore.StoreFile.AllocateInstance` | server/kk_local/storage/inventory.py:64-72 | the next id is above the floor, above every item of every player and above the counter, or there is none |
| `CommerceStore.StoreFile.BuyItem` | server/kk_local/shop.py:78-107 | a purchase is replayed from its receipt, carried out in full or leaves no trace; and what it answers |
| `CommerceStore.StoreFile.DeliverLocked` | server/kk_local/mailbox.py:29-57 | an earlier delivery answers for itself or conflicts, otherwise one mail with at most one new attachment |
| `CommerceStore.StoreFile.PostMail` | server/kk_local/mailbox.py:24-26 | an administrative delivery and its answer |
| `CommerceStore.StoreFile.GiveItem` | server/kk_local/shop.py:131-152 | a gift is replayed from its receipt, carried out in full or leaves no trace; and what it answers |
| `CommerceStore.StoreFile.ClaimAttachment` | server/kk_local/mailbox.py:76-89 | a claim is replayed from the mail's mark, carried out in full or refused; and what it answers |
| `CommerceStore.StoreFile.RemoveMail` | server/kk_local/mailbox.py:92-96 | the owner's mail is marked deleted, which keeps its identity and its claim |
| `CommerceStore.StoreFile.AwardItem` | server/kk_local/title_rewards.py:129-131 | an item given out by the service takes the next id; nothing is written when the player holds 8000 items or no id is left |
| `CommerceLaws.BuyingPays` | server/kk_local/shop.py:78-107 | on record fields: exactly when a purchase is carried out, it takes the price out of the one wallet and puts the offered item, permanent as the policy says, under the next id, with its receipt; otherwise nothing changes |
| `CommerceLaws.PostingPosts` | server/kk_local/mailbox.py:29-57 | exactly when an administrative delivery is new and fits, it posts one mail with at most one new attachment |
| `CommerceLaws.GivingPays` | server/kk_local/shop.py:131-152 | on record fields: exactly when a gift is carried out, it takes the quoted current price in tickets and posts the offered item to the one recipient, with its receipt |
| `CommerceLaws.ClaimingTakes` | server/kk_local/mailbox.py:76-89 | exactly when a claim is carried out, it puts the mailed item, not permanent, under the next id and marks that mail with it |
| `CommerceLaws.AwardingGives` | server/kk_local/title_rewards.py:129-131 | an award puts exactly the chosen item under the next id |
| `CommerceLaws.RemovingMarks` | server/kk_local/mailbox.py:92-96 | a removal sets the mark of the player's one mail and nothing else |
| `AnswerLaws.BuyAnswers` | server/kk_local/shop.py:78-107 | a purchase, carried out now or before, is answered exactly when the store left behind holds its receipt: with the currency sold in, what is left in that wallet, and the item if it is still held |
| `AnswerLaws.GiveAnswers` | server/kk_local/shop.py:131-152 | the same for gifts: tickets left, recipient and mail of the receipt |
| `AnswerLaws.ClaimAnswers` | server/kk_local/mailbox.py:76-89 | a claim is answered exactly when the mail is marked afterwards, with the item of the mark |
| `AnswerLaws.RepeatsAnswerAlike` | server/kk_local/shop.py:82-91 | the repeat of a purchase changes nothing and is answered as the purchase was |
| `Commerce.WalletsConserved` | server/kk_local/shop.py:61-152 | over every run a wallet is what it was, plus credits, minus exactly the term prices of the calls carried out |
| `CommerceLaws.PriceCosts` | server/kk_local/shop.py:27-29 | the price on record fields: without a sale the base price, on sale the current price of a gift, and of a purchase whichever of base and current is not above the other |
| `CommerceLaws.DebitsArePrices` | server/kk_local/shop.py:61-107 | a call takes money only if it leaves a receipt, and then exactly the price of the record in the receipt |
| `CommerceLaws.WalletsTellPrices` | server/kk_local/shop.py:61-152 | over every run a wallet is what it was, plus credits, minus the prices on record fields of what its receipts show was sold |
| `Commerce.BalancesBounded` | server/kk_local/shop.py:61-66 | no balance is ever negative or beyond the wallet's range |
| `Commerce.StepReceipts` | server/kk_local/shop.py:82-105 | receipts stay, and a call carried out leaves one where there was none |
| `Commerce.OncePerOperation` | server/kk_local/shop.py:82-105 | an operation id is carried out at most once per player, as purchase and as gift |
| `Commerce.StepItems` | server/kk_local/shop.py:97-105 | a purchase, claim or award carried out adds exactly one item, under a new id; no other call adds any |
| `Commerce.NextIsFree` | server/kk_local/storage/inventory.py:64-72 | the next id is nobody's and above the counter |
| `CommerceLaws.NextIsNext` | server/kk_local/storage/inventory.py:64-72 | the next id is the least number above the floor, the counter and every id held |
| `Commerce.InstancesIncrease` | server/kk_local/storage/inventory.py:64-72 | ids allocated in a run are strictly increasing across all players and allocators, deleted items included |
| `Commerce.NewForeverIff` | server/kk_local/storage/inventory.py:64-72 | every id allocated from a store on differs from all ids anybody ever held, deleted ones included, if and only if the counter, or its floor, covers the ids the store starts with |
| `Commerce.RunCovered` | server/kk_local/storage/inventory.py:64-72 | once the counter covers all ids it does so forever |
| `Commerce.RunMail` | server/kk_local/mailbox.py:29-96 | over every run mail identities, attachments and claims stay what they became |
| `Commerce.OncePerAttachment` | server/kk_local/mailbox.py:76-89 | after a claim was carried out every later claim of that attachment is a replay |
| `Commerce.GiftPostsOneMail` | server/kk_local/shop.py:141-152 | a gift carried out posts exactly one unclaimed mail with one new attachment to the one recipient |
| `Commerce.RunGiftsReceipted` | server/kk_local/shop.py:136-152 | on every run a gift mail is backed by its receipt |

## Left out

- Byte layouts of battle events and packets: events are decoded records, `rest` standing for bytes the service does not read; outgoing notices and snapshots are not modelled.
- Sockets, TLS, asyncio, logging, health endpoint and configuration: only the awaits inside accept remain, as step boundaries.
- Key derivation, AES-GCM, SHA-256 and text encodings: an abstract sealing law, and requests compared as values instead of by digest.
- `RecordReader.readexactly`: a loop around read that adds no state.
- The optional header validator of the frame decoder: it belongs to the public service's command policy.
- `FairRate`: the same bucket arithmetic as the datagram budget with a plain table.
- Token buckets are values in the tables and not objects of their own, so aliasing of a bucket is not captured.
- Metrics, unknown-message records and peak counters: they influence no decision.
- `BattleRoom.BattleRoom.Execute`: a room without a team series is modelled, so series events are refused or ignored; talismans and consumption have handlers of their own outside the relay.
- `BattleRoom.BattleRoom.Handle`: the same, as it runs Execute.
- `BattleRoom.BattleRoom.ActorEvent`: the plan, quotas and limits a spawn has to meet are one input here; StageWaves and FosterGroups model them.
- `BattleRoom.BattleRoom.RelayNpc`: the HP a hit takes from an actor in the foster mode is kept by FosterGroups.
- `BattleRoom.BattleRoom.Lifecycle`: decoding and the comparison of sender and connection come before the modelled part.
- Broadcasts of block states, of the foster mode's finish, of a wave's end and of positions are not part of the delivery log; StageWaves and FosterGroups model which of them are accepted.
- A dispatch through the cache in a cooperative room: the public service, which alone dispatches, opens no such mode (public_commands.py:75), so this step changes nothing in the model.
- Raw peer datagrams relayed by a service that is not public, and the selections and actors' events it reads in them: they bypass the battle relay. Only the spawns and removals it reads there are modelled, as observed ones.
- Queue overflow of a single engine during a relay: the battle hands out sets of recipients, MemoryBudget models the queues.
- `StageWaves.StageBattle.SpawnEvent`: the motion and version filters a spawn resets are modelled in BattleRoom and FosterGroups.
- The hub of rooms: one room is modelled with the engines placed in it; room numbers, the directory and automatic matching choose a room but change none.
- `SharedRoom.SharedRoom.Join`: password and invitation are one input `admitted`; the error codes of a refusal are not modelled.
- `SharedRoom.SharedRoom.UpdateSettings`: option bytes, texts and map availability are one input `sound`, and bytes of the request nobody reads are an uninterpreted rest.
- `SharedRoom.SharedRoom.ReportResult`: the verdict of the outcome formulas is an input, and awards, snapshots and the extra request for missing reports are not modelled.
- `SharedRoom.SharedRoom.FinishStage`: the clear-or-failed test of the report is an input, and the rows of the reply are not modelled.
- `SharedRoom.SharedRoom.Expire`: the sweep over all rooms and suspended members is modelled as separate steps in any order.
- `SharedRoom.SharedRoom.StartMatch`: measured delays and the battle serial are not modelled.
- Members are values in the room's dictionary and not objects shared with engines; activity labels are not modelled.
- `FosterGroups.FosterBattle.RelayActor`: rounding to f32 is an abstract function, with its clamping kept; the laws of HP ask of it that it is monotone, idempotent and keeps zero and the initial HPs.
- `FosterGroups.FosterBattle.ReceivePositions`: the byte layout of the snapshot is decoded into rows.
- Path decoding, hashing and CSV output of the resource tool, and Python's recursion limit in its walk.
- `CommerceStore.StoreFile.BuyItem`: SQL, packets and the record layout of a permanent item are not modelled; a flag marks permanence.
- `CommerceStore.StoreFile.AwardItem`: the gold a quest reward adds in the same transaction is a credit of its own here; the offline repair, which replaces an item by another, is not bound by the limit of 8000.
- Mail listing, details and read flags: they change nothing the ledgers depend on.
- Quests, titles, provisioning, repairs, renewal and weapon upgrades: between the modelled calls they are arbitrary awards, credits and discards, without the receipts they keep themselves.
