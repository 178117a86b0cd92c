# Verification of the cherm relay and client protocol

A Dafny model of the parts of cherm on which its guarantees rest, with proofs about every run of them.
The relay forwards ciphertext between users; the client keeps groups whose membership only the group's
owner decides. The model has three parts.

**The relay** (`backend/server`). `Relay.dfy` is a transition system: connection tasks share the user
directory, the offline queue and the map of online users, every section under a lock and every push onto
a channel is one atomic step, and steps of different connections interleave freely, with restarts in
between. Invariants over all step sequences: identities are earned (`RelayIdentity`), the online map
shows exactly the latest open logins (`RelayPresence`), no message is forged or misdirected
(`RelayProvenance`) and every one repeats word for word a Send step of its author (`RelayLedger`), no
accepted row is lost and quotas hold (`RelayConservation`), backlogs arrive in order and once per connection
(`RelayOrder`), each recipient of a Send is dealt with exactly once (`RelayDelivery`), and one sender's
messages keep their order at a receiver exactly if no live message overtakes a queued one (`RelaySequence`;
`RelayOvertaking` is a run in which one does). What a client that is not interrupted can count on, a Send
that gives every recipient its due and a login or Pull that empties the backlog, is in `RelayService`. The
objects behind those steps are modelled as they are written, step by step: `TokenBucket` and `FetchGate`
(rate limits), `Prekeys` (one-time keys), `Outbox` (offline queue and its flush loop), `FanOut` (the Send
loop), `Admission` (connection slots).

**The client's groups** (`backend/core`). `Groups.dfy` says, for the rows one vault holds about one group,
what each handler makes of them and which frames it sends. `Vault.dfy` and `GroupClient.dfy` are the
tables and handlers as they run, statement by statement on mutable maps, proved to do that to their own
group and nothing to any other. Over whole runs: only the recorded owner's word changes a group
(`GroupAuthority`), replayed ciphertexts have no effect (`GroupReplay`), the owner's runs reduce to seven
moves (`GroupOwner`), who holds and can use which key (`GroupKeys`), members that consume the owner's
stream in order, whatever else they do, agree with the owner (`GroupReplication`, `GroupConvergence`), what
any member says is opened by those on its roster and heard by a peer line by line (`GroupSpeech`,
`GroupPeers`), nobody is heard who was not entitled (`GroupHearing`), and bans and suspensions last exactly
as long as they should (`GroupSuspension`). `GroupOutcomes` gives the rows after each handler, case by case.
`Contacts.dfy` is trust-on-first-use pinning.

**Companions.** `Framing.dfy` is the length-prefixed codec and `Versions.dfy` the version order that the
engine and the terminal client each implement.

Handlers are atomic, since command loop and processor lock the vault per call. Signatures and Megolm
ciphertexts are symbolic; session ids, nonces and group ids are fresh; JSON and Base64 of opaque bytes are
injective. Time is a parameter, of type `real` for the buckets.

## What the proofs found

- Byte budget of the offline queue (`backend/server/src/db.rs:239-278`): `length(frame)` counts characters,
  `frame.len()` bytes. Of the frames the relay can store, a queue below its row cap is kept within 64 MiB by
  every one accepted next exactly if the largest still accepted fits beside the bytes already queued; once
  the counted room is no more than one frame, exactly if all its queued frames are ASCII
  (`RelayByteCapHoldsIff`). From an empty queue 61 frames of 4 MiB are accepted, 244 MiB in all
  (`ByteCapOverrun`: only the payload of a Send has a limit below that of the frame, its `msg_type` has
  none); 256 MiB are never exceeded (`EveryQueueWithinQuota`).
- Presence is published before the backlog is flushed (`backend/server/src/conn.rs:524-534`), so a live message can
  overtake a queued one of the same sender (`LiveOvertakesQueued`); nothing else ever reorders or
  duplicates what one connection sends to another (`InOrderIffNothingOvertaken`).
- The fetch gate's cap (`backend/server/src/conn.rs:168-182`) does not bound its map: a bucket that has served a request is
  below its burst, so the pruning of full buckets never frees an entry (`GateKeepsEveryTarget`).
- A leave notice takes its sender off the roster but rotates no key: the holders of the session in use are
  those its shares reached, each a member or gone by their own leave since the last rotation
  (`HoldersOfCurrentKey`). Any reachable member can bring this about and read on (`LeaverReadsOn`).
  Nor does anybody drop the leaver's own session: what they say in it afterwards is still stored
  (`LeaversAreStillHeard`).
- The two version orders differ: build suffixes and empty fields count in the engine and not in the client.
  A string is ordered alike against all well-formed ones exactly if no field before its first `+` is empty
  and every field after it reads as zero (`AgreementIffAligned`).
- The comment at `backend/core/src/plugins.rs:747-748` promises that non-numeric fields are compared lexically. They
  all count as -1, so that "b" is not newer than "a" (`CommentFails`). Two fields are ordered as promised
  exactly if both are numbers, or they are the same, or one is a number and the other comes before it in
  the alphabet (`CommentHoldsIff`).
- A pinned identity key is never replaced by any operation (`PinIsForever`); no statement deletes a contact,
  so leaving a chat does not re-pin, contrary to the message at `backend/core/src/net.rs:765`.
- The prekey cap of 500 counts unused keys only. Used rows stay, so the table grows with every key handed
  out (`TableGrowsWithUse`): after n rounds of publishing one key and fetching it, up to 50,000, it
  holds n rows (`TableOutgrowsTheCap`).

## Model

| member | source | states |
|---|---|---|
| TokenBucket.RateLimiter.Allow | backend/server/src/conn.rs:141-152 | the mutable bucket refills by elapsed time, never above burst, and spends one token if it has one |
| TokenBucket.GrantedIffEveryWindowHasRoom | backend/server/src/conn.rs:114-152 | a request to a bucket that started full is granted exactly when no window ending at it would exceed burst + rate * length |
| TokenBucket.LevelAtMostRoom | backend/server/src/conn.rs:141-152 | the token level never exceeds what any earlier window leaves, whatever the starting level |
| TokenBucket.LevelIsSomeRoom | backend/server/src/conn.rs:141-152 | for a full start the level equals what some window leaves, so the bound is tight |
| TokenBucket.WindowBound | backend/server/src/conn.rs:141-152 | grants in any window of a run with a non-decreasing clock number at most burst + rate * length |
| TokenBucket.BurstIsExact | backend/server/src/conn.rs:925-945 | of n requests at one instant to a full bucket exactly min(n, burst) are granted |
| TokenBucket.TakeLeavesLessThanBurst | backend/server/src/conn.rs:147-149 | after serving a request a bucket is strictly below its burst |
| FetchGate.SharedGate.Prune | backend/server/src/conn.rs:178-182 | past the cap exactly the full buckets go |
| FetchGate.SharedGate.FetchAllowed | backend/server/src/conn.rs:176-186 | the shared map of limiters prunes, creates the target's on first use and charges it, touching no other |
| FetchGate.GateInvariant | backend/server/src/conn.rs:176-186 | the gate stores exactly the targets asked for, each with the bucket it would have on its own, each below burst |
| FetchGate.AnswersAsIndependentBuckets | backend/server/src/conn.rs:139-186 | every answer of the lazy, pruned, shared gate is that of a per-target bucket full since start-up and never dropped |
| FetchGate.GateKeepsEveryTarget | backend/server/src/conn.rs:168-182 | the gate holds every target ever asked for: the cap does not bound it |
| FetchGate.FetchesOfOneTargetBounded | backend/server/src/conn.rs:155-186 | over all connections, fetches of one target let through in a window are at most 30 + 4 per second |
| Prekeys.PrekeyTable.InsertPrekey | backend/server/src/db.rs:155-167 | a new (user, id) is appended unused, a known one leaves the table alone |
| Prekeys.PrekeyTable.CountUnused | backend/server/src/db.rs:171-177 | counts the user's rows not handed out yet |
| Prekeys.PrekeyTable.PublishPrekeys | backend/server/src/conn.rs:627-705 | refuses oversized batches and malformed keys before any write, then anything that would exceed 500 unused keys, else inserts all |
| Prekeys.PrekeyTable.TakePrekey | backend/server/src/db.rs:184-209 | marks and returns the user's lowest unused row, if any |
| Prekeys.TakePopsOldest | backend/server/src/db.rs:184-209 | taking pops the head of that user's queue and changes no other queue and no published key |
| Prekeys.InsertAppends | backend/server/src/db.rs:155-167 | inserting keeps (user, id) unique and appends at most one key to its owner's queues alone |
| Prekeys.BatchAppends | backend/server/src/conn.rs:674-685 | a batch appends the same keys to the owner's published and unused queues, at most its own length |
| Prekeys.PublishStoresAllOrNothing | backend/server/src/conn.rs:645-685 | a batch of at most 200 well-formed keys that fits under the cap is stored: each key that is the first to carry its id, unused, while known ids keep their keys; any other batch changes nothing |
| Prekeys.HandedOutInOrder | backend/server/src/db.rs:81-89 | in every run the published keys are those handed out followed by those unused, in order of publication, ids are unique, and at most 500 are unused |
| Prekeys.EachKeyAtMostOnce | backend/server/src/db.rs:181-209 | no key id of a user is handed out twice, re-published or not |
| Prekeys.FetchOutcome | backend/server/src/conn.rs:708-756 | a fetch that the gate lets through, of a registered user with unused keys, hands over the oldest and takes it off the queue; any other fetch changes no key and hands over none |
| Prekeys.TableGrowsWithUse | backend/server/src/conn.rs:107-113 | in every run a user's rows are those handed out plus at most 500 |
| Prekeys.TableOutgrowsTheCap | backend/server/src/conn.rs:107-113 | publishing a fresh key and fetching it a second later, n times over, leaves n rows of the user in the table, for any n up to 50,000: the cap of 500 does not bound it |
| Prekeys.RepublishingIsIdle | backend/server/src/db.rs:152-167 | publishing keys the table has, used or unused, changes nothing |
| Prekeys.GateIsFetchGate | backend/server/src/conn.rs:724-731 | the gate in a run of the table is the fetch gate run on its fetches |
| Prekeys.DrainIsBounded | backend/server/src/conn.rs:708-756 | over all connections, the keys of one user handed out between two moments are at most 30 + 4 per second |
| Outbox.OutboxTable.EnqueueIfUnderCap | backend/server/src/db.rs:263-281 | accepts exactly below the row cap and the mixed byte cap, and then appends under a new id |
| Outbox.OutboxTable.DeleteFrames | backend/server/src/db.rs:303-309 | the loop of deletions leaves exactly the rows whose id is not listed |
| Outbox.OutboxTable.PruneExpired | backend/server/src/db.rs:298-300 | in one pass every row older than the cutoff goes and every other stays, in its order; the number of rows that went is returned |
| Outbox.OutboxTable.FlushOutbox | backend/server/src/conn.rs:268-322 | hands over, in id order, the messages of the longest prefix the connection takes, and deletes exactly the handled rows, unreadable ones included |
| Outbox.HandlesOnce | backend/server/src/conn.rs:293-314 | a flush of given rows with given room has one outcome |
| Outbox.RowsForInOrder | backend/server/src/db.rs:288-292 | a recipient's rows are read in id order |
| Outbox.DeletionKeepsOrder | backend/server/src/db.rs:298-309 | deleting and pruning keep the table in id order |
| Outbox.FlushTakesPrefix | backend/server/src/conn.rs:316-321 | deleting the first k rows of one queue leaves the rest of it and every other queue |
| Outbox.EnqueueKeepsQuota | backend/server/src/db.rs:263-281 | an enqueue keeps every recipient within 10,000 rows and 64 MiB characters |
| Outbox.DeletionKeepsQuota | backend/server/src/db.rs:298-309 | deleting and pruning lengthen no queue |
| Outbox.SizeAtMostFourLengths | backend/server/src/db.rs:236-245 | bytes are at least the counted characters and at most four times as many |
| Outbox.ByteCapHoldsIffAscii | backend/server/src/db.rs:274-278 | for the function called with any frame at all: at any one cap, a queue with room is kept within the cap in bytes by every frame that may be accepted next, if and only if all its queued frames are ASCII |
| Outbox.RelayByteCapHoldsIff | backend/server/src/conn.rs:74-81 | for the relay's caps and the frames it can store, of at most 16 MiB and 1 KiB: a queue below its row cap is kept within 64 MiB by every frame accepted next if and only if the largest still accepted fits beside the bytes queued; once the counted room is no more than one frame, if and only if all queued frames are ASCII |
| Outbox.CopiesAreAccepted | backend/server/src/db.rs:263-281 | from an empty queue k copies of a frame are all accepted as long as the characters of the earlier ones and the bytes of the last fit, and the queue then holds k times the bytes |
| Outbox.BoundedFramesFitIff | backend/server/src/db.rs:274-278 | for frames of bounded size the cap is kept exactly if the largest one still accepted fits beside the bytes already queued |
| Outbox.ByteCapOverrun | backend/server/src/db.rs:274-278 | at the relay's caps, 61 frames of 4 MiB in four-byte characters are accepted from an empty queue, which then holds 244 MiB |
| FanOut.RecipientsAre | backend/server/src/conn.rs:819-825 | each listed user other than the author is addressed once |
| FanOut.Router.RouteOne | backend/server/src/conn.rs:826-863 | an unknown user gets nothing; one whose channel is open, alive and holds fewer than 512 gets the message there and only there; any other one row in the queue if fewer than 10,000 rows and 64 MiB leave room; and the two results say whether the user is known and reached |
| FanOut.Router.RouteToAll | backend/server/src/conn.rs:815-864 | the loop gives every distinct recipient its due and everybody else nothing, and reports whether any was reached and any unknown |
| FanOut.Router.Send | backend/server/src/conn.rs:759-872 | checks login, rate, payload and fan-out in this order; the reply is `unknown_user` exactly if some recipient is unknown and none was reached |
| FanOut.RouteTouchesOne | backend/server/src/conn.rs:826-863 | routing to one user gives it one copy or none and touches nobody else |
| FanOut.EachRecipientOnce | backend/server/src/conn.rs:815-864 | every recipient gets its due, live before queued, as its own channel and queue alone decide, and everybody else is untouched |
| RelayIdentity.EveryIdentityIsEarned | backend/server/src/conn.rs:463-624 | in every state a logged-in connection founded its account or signed a nonce issued to it with the account's key; pending nonces are its own and unused; names and keys are one-to-one, names valid and not reserved |
| RelayIdentity.NonceAdmitsOnce | backend/server/src/conn.rs:554-601 | two connections logged in by the same nonce are the same |
| RelayIdentity.SpentNonceStaysSpent | backend/server/src/conn.rs:554-592 | a nonce once used, rightly or wrongly, or replaced never becomes pending again |
| RelayIdentity.EachNonceTriedOnce | backend/server/src/conn.rs:586-618 | an attempt succeeds exactly with the account key's signature over the pending nonce, and uses that nonce up for good either way |
| RelayIdentity.RegistrationSucceedsIff | backend/server/src/conn.rs:463-530 | a registration founds the account, and logs the connection in, exactly with a new name of one to sixteen letters and digits that spells neither "system" nor "server" in any case, two keys that are the Base64 form of 32 bytes, and an identity key nobody has; otherwise nothing changes |
| RelayIdentity.ChallengeIsAnswered | backend/server/src/conn.rs:554-618 | who asks for a challenge is given a nonce never drawn before, and the account key's signature over it logs the connection in as that account |
| Text.PubkeyIsBase64 | backend/server/src/conn.rs:191-197 | the key check accepts exactly the Base64 forms of 32 bytes |
| RelayPresence.OnlineIsLatestLogin | backend/server/src/conn.rs:889-907 | the online map holds a user exactly if the latest login is still open, and then that connection |
| RelayPresence.IdentitiesAreFinal | backend/server/src/conn.rs:361-362 | identities once taken stay, a closed connection stays closed and unmapped, channels only grow |
| RelayPresence.EnterKeepsPresence | backend/server/src/conn.rs:524-526 | a login maps its user to its connection, leaves every other user's entry as it was, and keeps the invariant |
| RelayPresence.CleanupKeepsPresence | backend/server/src/conn.rs:892-907 | a connection that goes takes exactly the entries that point to it, never a newer login's, and keeps the invariant |
| RelayLedger.QueuedWasSent | backend/server/src/conn.rs:798-863 | every queued row repeats, in content, time and serialised form, a Send step of the run within the limits, taken on a connection that carried its author's identity, and lies with a registered recipient that step listed |
| RelayLedger.DeliveredWasSent | backend/server/src/conn.rs:293-304 | every message in a channel repeats such a Send step, which listed the channel's user |
| RelayLedger.EntriesAreCommands | backend/server/src/conn.rs:760-806 | every message the relay works on is the one that some Send step commanded, by the user its connection carried then, and numbers follow the order of these steps |
| RelayLedger.CommandsAreEntered | backend/server/src/conn.rs:760-806 | every Send on a logged-in connection that waits for commands, within 128 KiB and 1024 recipients, is taken as it was commanded, whatever follows |
| RelayProvenance.PushIsReal | backend/server/src/conn.rs:842-863 | routing adds only genuine messages, to the user looked up |
| RelayProvenance.FlushSendIsReal | backend/server/src/conn.rs:293-304 | a flush adds only genuine messages, to the user who flushes |
| RelayConservation.NothingIsLost | backend/server/src/conn.rs:237-322 | an accepted row is queued, or its message is in a channel of its recipient, or a prune took it as older than its cutoff |
| RelayConservation.FlushDeletesHandedPrefix | backend/server/src/conn.rs:293-321 | the end of a flush deletes exactly the handled prefix of its snapshot, each row handed to this connection; later rows stay |
| RelayConservation.FlushSendKeepsCustody | backend/server/src/conn.rs:293-304 | a row counts as handled only once it is in the channel |
| RelayConservation.PushKeepsCustody | backend/server/src/conn.rs:842-863 | queueing uses a new id and disturbs no flush in progress |
| RelayConservation.PruneKeepsCustody | backend/server/src/main.rs:436-453 | pruning takes only rows older than its cutoff and disturbs no flush in progress |
| RelayConservation.EveryQueueWithinQuota | backend/server/src/conn.rs:74-81 | in every interleaving each recipient has at most 10,000 rows and 64 MiB characters, hence at most four times that in bytes |
| RelayOrder.BacklogInOrder | backend/server/src/conn.rs:268-322 | the ids of the rows handed to any one connection strictly increase: in order and never twice |
| RelayOrder.SendStaysOrderly | backend/server/src/conn.rs:293-304 | the next row of a snapshot lies beyond all handed over before |
| RelayOrder.DeleteStaysOrderly | backend/server/src/conn.rs:316-321 | after the deletion everything still queued lies beyond what was handed over |
| RelayDelivery.EveryRecipientDealtWithOnce | backend/server/src/conn.rs:815-871 | under any interleaving the recipients of a Send are dealt with in list order, none twice, and all of them once its connection takes the next command |
| RelayDelivery.ReachedMeansKept | backend/server/src/conn.rs:842-863 | a recipient recorded as reached has the message in a channel, or in a row still queued or pruned as too old |
| RelaySequence.InOrderIffNothingOvertaken | backend/server/src/conn.rs:524-534 | in any run, what one connection sent arrives at another in the order of its Sends and without duplicates, if and only if no live push between the two happens while a row of that sender is queued for the receiver, not yet with it, and handed to it later |
| RelaySequence.RunWorksAhead | backend/server/src/conn.rs:815-864 | in any run, whatever a connection already placed for a recipient still on its list was sent earlier, and rows from one connection to one recipient are queued in the order of its Sends |
| RelaySequence.NothingOvertakenInOrder | backend/server/src/conn.rs:268-322 | without overtaking, at every point of the run what is with the receiver is in order and older than every row of that sender that is still to come |
| RelaySequence.OvertakingBreaksOrder | backend/server/src/conn.rs:524-534 | one live push past a row that is handed over later leaves the receiver's channel out of order for good |
| RelaySequence.GoneForGood | backend/server/src/conn.rs:283-322 | a row that is neither queued nor in the receiver's snapshot, and was not handed to it, never will be |
| RelayOvertaking.LiveOvertakesQueued | backend/server/src/conn.rs:524-534 | a run of two users in which the second message reaches the channel before the first, queued one |
| RelayService.SendServesAll | backend/server/src/conn.rs:759-872 | in any reachable state a Send that is not interrupted gives each distinct recipient its due, live if online with room, else one row if the queue has room, unknown users and everybody else nothing, and the connection waits for commands again |
| RelayService.FlushDrains | backend/server/src/conn.rs:268-322 | a flush that is not interrupted moves the whole backlog of the user into the channel, in order, and leaves every other queue and channel alone |
| RelayService.PullDrains | backend/server/src/conn.rs:875-880 | so a Pull delivers everything queued |
| RelayService.LoginDrains | backend/server/src/conn.rs:524-534 | and so does a login, which makes the connection the one its user is reached at |
| RelayService.PruneClears | backend/server/src/main.rs:436-452 | a prune removes every queued row older than its cutoff and no other |
| RelayService.RestartKeepsStore | backend/server/src/main.rs:261-310 | a restart ends all connections and empties the online map, and leaves accounts and queues |
| Admission.IpCounts.Admit | backend/server/src/main.rs:83-98 | admits and counts a connection exactly below 64 of its address |
| Admission.IpCounts.Drop | backend/server/src/main.rs:68-78 | gives the slot back and removes an entry that reaches zero, without underflow |
| Admission.CountsAreLiveConnections | backend/server/src/main.rs:57-98 | in every state an address's count is the number of its live guards, between 1 and 64, absent means none, and every guard has one of at most 4096 permits |
| Admission.AdmittedIffBelowCap | backend/server/src/main.rs:83-98 | an address is turned away exactly at 64 live connections, and a dropped guard finds its count above zero |
| Admission.AllAddressesWithinPool | backend/server/src/main.rs:331-361 | the counts of any addresses together are at most 4096 |
| Admission.ConnectionLeavesNoTrace | backend/server/src/main.rs:331-361 | with a permit to spare a connection is admitted below 64 of its address, and when it is over counts, guards and permits are as before; turned away, it leaves them as before at once |
| VaultTables.Vault.MegolmAccept | backend/core/src/vault.rs:451-479 | accepts exactly numbers above the recorded one and records them; otherwise changes nothing |
| VaultTables.Vault.CreateGroupMeta | backend/core/src/vault.rs:726-767 | takes the first free of 64 candidate keys, keeps an existing row, reports failure if all are taken |
| VaultTables.Vault.UpsertGroupMeta | backend/core/src/vault.rs:787-814 | overwrites the row unless its key belongs to another group |
| VaultTables.Vault.CheckSuspended | backend/core/src/vault.rs:932-942 | reports an active suspension and deletes one that has run out |
| VaultTables.Vault.DeleteChat | backend/core/src/vault.rs:590-622 | erases all rows of the group |
| VaultTables.PutWrites | backend/core/src/vault.rs:698-721 | writing one group leaves every other group and the uniqueness of invite keys intact |
| GroupClient.Client.DistributeGroupKey | backend/core/src/net.rs:838-896 | the loop sends the share to each recipient but ourselves and those without one-time keys |
| GroupClient.Client.BroadcastGroupEvent | backend/core/src/net.rs:903-939 | mints and shares a session if we have none, then sends the event to the rest of the roster |
| GroupClient.Client.Admit | backend/core/src/net.rs:1048-1106 | seats the member, shares the key, announces the join, in this order |
| GroupClient.Client.ModerateMember | backend/core/src/session.rs:1589-1625 | announces under the old key, drops the member, rotates and shares the new key with the rest |
| GroupClient.Client.HandleGroupKeyShare | backend/core/src/net.rs:516-601 | a share changes exactly what its authority allows: session, and for the owner also chat, roster and metadata |
| GroupClient.Client.ProcessMegolm | backend/core/src/net.rs:604-641 | a message is stored once, if it opens and is fresh |
| GroupClient.Client.ProcessMegolmSystem | backend/core/src/net.rs:646-688 | a fresh leave notice removes its sender |
| GroupClient.Client.ProcessGroupEvent | backend/core/src/net.rs:1178-1284 | a fresh event of the owner is applied table by table; others only reach the guard |
| GroupClient.Client.HandleJoinRequest | backend/core/src/net.rs:951-1006 | the owner admits, queues or refuses; nobody else reacts |
| GroupClient.Client.Invite | backend/core/src/session.rs:1382-1422 | the owner admits a user who is neither banned nor suspended |
| GroupClient.Client.Accept | backend/core/src/session.rs:1425-1467 | as an invitation, for a queued request |
| GroupClient.Client.RemoveUser | backend/core/src/session.rs:1470-1484 | the owner moderates somebody else off the roster |
| GroupClient.Client.BanMember | backend/core/src/session.rs:1487-1500 | the ban is recorded before the moderation |
| GroupClient.Client.UnbanMember | backend/core/src/session.rs:1503-1519 | lifts a ban and sends nothing |
| GroupClient.Client.SuspendMember | backend/core/src/session.rs:1541-1582 | records the suspension until now + duration and moderates |
| GroupClient.Client.UnsuspendMember | backend/core/src/session.rs:1522-1538 | lifts a suspension and sends nothing |
| GroupClient.Client.SetAccess | backend/core/src/session.rs:1290-1324 | changes a valid mode and announces it |
| GroupClient.Client.Say | backend/core/src/session.rs:1051-1099 | encrypts to the roster, minting and sharing a session first if needed |
| GroupClient.Client.LeaveChat | backend/core/src/session.rs:1103-1203 | sends the leave notice when connected and erases the group |
| GroupClient.Client.CreateGroup | backend/core/src/session.rs:888-958 | mints session and invite key, seats everybody, shares the key; stops half-way without a free key |
| Groups.AdmitMemberSeats | backend/core/src/net.rs:1048-1106 | admitting changes roster, requests, outbound session and messages, nothing else |
| Groups.ModerateDrops | backend/core/src/session.rs:1589-1625 | moderating drops the member and their inbound session and leaves an outbound one |
| GroupAuthority.ReceiveIsAccounted | backend/core/src/net.rs:516-1284 | whatever frame arrives, each change of roster, bans, suspensions and mode is one the owner's share or event, or our verdict as owner, authorises; the owner stays |
| GroupAuthority.ExecuteIsAccounted | backend/core/src/session.rs:1213-1625 | each change a command makes is authorised by our being the owner, except leaving |
| GroupAuthority.OwnerIsTheOnlyAuthority | backend/core/src/net.rs:516-601 | over any run without erasure the owner is the same and everybody seated, unseated, banned or suspended, and the mode, trace back to the owner's authority |
| GroupReplay.ReceiveGuards | backend/core/src/net.rs:604-688 | only frames that pass the guard write to it, and a Megolm frame that does not pass changes nothing and sends nothing |
| GroupReplay.GuardIsMaximum | backend/core/src/vault.rs:451-479 | the guard remembers the largest number offered under each sender and session |
| GroupReplay.FreshIffRunningMaximum | backend/core/src/vault.rs:451-479 | a frame passes exactly if its number exceeds all earlier ones of its sender and session, whatever their tags |
| GroupReplay.NoEffectTwice | backend/core/src/net.rs:604-688 | a repeated or older number of a session changes nothing, under any tag |
| GroupOwner.StepIsMove | backend/core/src/session.rs:1271-1625 | each handler of the owner makes the one of seven moves that its input calls for, sends exactly its frames, keeps an outbound session, and lifts no ban but on command |
| GroupKeys.RunIsHistory | backend/core/src/net.rs:838-939 | any run of the owner's client, whatever Megolm frames claim the owner's own name, sends what its sequence of moves sends, with every key share and message in order |
| GroupKeys.RunIsComplete | backend/core/src/net.rs:838-896 | a user who can be reached throughout has been sent every key due, others being unreachable or not |
| GroupKeys.RunIsExact | backend/core/src/net.rs:838-896 | in any run the session in use was sent to exactly the users reachable when its shares went out: the others at the founding or last rotation, and everybody seated since |
| GroupKeys.HoldersOfCurrentKey | backend/core/src/session.rs:1271-1287 | the same holders are members or left on their own since the last rotation, and each of these who could be reached throughout is a holder, whoever else could not be reached |
| GroupKeys.LeaverReadsOn | backend/core/src/net.rs:646-688 | any member reached at the founding can take leave, is then off the roster, still holds the session in use, and can open what the owner says next |
| GroupKeys.ReadersAreAddressees | backend/core/src/net.rs:903-939 | of all keys ever sent, before or after a message, only those of its addressees and of users who had left under its session when it was sent open it; and each of theirs does, if reached |
| GroupKeys.ExpelledHoldNoCurrentKey | backend/core/src/session.rs:1589-1625 | from a removal, ban or suspension until the user is on the roster again, no session in use was ever sent to them |
| GroupKeys.StepSparesBanned | backend/core/src/net.rs:951-1043 | no handler seats a banned user or sends them anything but a refusal |
| GroupKeys.BannedGetNothing | backend/core/src/session.rs:1487-1519 | from ban to unban the user is off the roster and gets no key, event or message, whatever happens in between |
| GroupSuspension.SuspendedGetNothing | backend/core/src/session.rs:1541-1582 | from a suspension until its deadline, or until it is lifted or replaced, the user is off the owner's roster and gets no key, event or message, whatever happens in between |
| GroupSuspension.SuspensionEndsOnTime | backend/core/src/vault.rs:932-942 | an otherwise welcome request of the suspended user is granted exactly from the deadline on |
| GroupSuspension.UnsuspendedIsWelcome | backend/core/src/session.rs:1522-1538 | after a suspension is lifted such a request is granted at once |
| GroupSuspension.BannedByCommand | backend/core/src/session.rs:1487-1519 | over any run of the owner, a user is banned exactly if banned by command and not unbanned by command since |
| GroupSuspension.UnbannedIsWelcome | backend/core/src/session.rs:1503-1519 | after an unban an otherwise welcome request is granted |
| GroupSpeech.OwedHoldTheKey | backend/core/src/session.rs:1051-1099 | over any run of any client, erasures included, every message is in a session minted in the run or held at its start, and whoever else was on the roster and reachable when the session was minted was sent, before the message, a share that opens it |
| GroupSpeech.OnlyOwedHoldTheKey | backend/core/src/net.rs:838-896 | a member that is not the owner never sends a key to anybody else |
| GroupSpeech.SharedIsHeard | backend/core/src/net.rs:604-641 | a recipient that has the sender in good standing on its roster and takes a share and then a message it opens gains exactly the line that was said |
| GroupSpeech.FirstWordIsHeard | backend/core/src/session.rs:1053-1090 | the first thing a member says goes out as a share and a message to each reachable peer, and taking them the peer gains exactly that line |
| GroupPeers.PeerHearsMember | backend/core/src/net.rs:604-641 | over any run of a member that neither owns nor leaves the group, a peer that takes the frames addressed to it in order gains exactly the messages in sessions shared with it, once each and in order |
| GroupHearing.HeardAreEntitled | backend/core/src/net.rs:516-566 | over any run, whoever's session is stored had it from the start or brought it in a share when on the roster or the owner, neither banned nor suspended |
| GroupHearing.EntitledAreHeard | backend/core/src/net.rs:516-566 | the importable share of such a user is stored |
| GroupHearing.LinesWereSaid | backend/core/src/net.rs:604-641 | every stored line that quotes somebody was typed here, or received word for word from its sender under a session held of them |
| GroupHearing.QuotedAreEntitled | backend/core/src/net.rs:516-641 | so nobody is quoted who had no session from the start and brought none when entitled |
| GroupHearing.OustedAreGone | backend/core/src/net.rs:1206-1262 | a removal, ban or suspension, at the owner and at each member that takes the event, ends the target's seat and session and records a ban, or a suspension with its deadline |
| GroupHearing.OustedAreUnheard | backend/core/src/net.rs:516-641 | from then on, until seated again, the target has no session and adds no line, whatever frames arrive |
| GroupHearing.LeaversAreStillHeard | backend/core/src/net.rs:646-688 | after a genuine leave notice its sender is off the roster, and a later message in their session is stored all the same |
| GroupHearing.WelcomedAreHeard | backend/core/src/net.rs:1206-1222 | once the owner says that somebody joined, their next share is stored, whatever was held against them |
| GroupOutcomes.ShareOutcome | backend/core/src/net.rs:516-601 | the rows after any key share: whose session is stored, when a run-out suspension is dropped, what the owner's share settles, and that nothing else changes |
| GroupOutcomes.MessageOutcome | backend/core/src/net.rs:604-641 | a message that opens and is fresh is one more line, word for word; any other is nothing |
| GroupOutcomes.LeaveOutcome | backend/core/src/net.rs:646-688 | a genuine, fresh leave notice takes its sender off the roster and is recorded; any other is nothing |
| GroupOutcomes.EventOutcome | backend/core/src/net.rs:1178-1284 | the rows after any event, by its kind: only the owner's are applied, being suspended oneself changes nothing, being removed or banned erases |
| GroupOutcomes.RequestOutcome | backend/core/src/net.rs:951-1043 | what a join request comes to at the owner: admission, the queue or a denial, and the rows after each |
| GroupOutcomes.CommandOutcome | backend/core/src/session.rs:1271-1625 | the rows after every command of the owner |
| GroupOutcomes.SayOutcome | backend/core/src/session.rs:1051-1099 | what anybody says: one line, one message to everybody else on the roster under the next number, and the share of a new session before it |
| GroupOutcomes.DepartureOutcome | backend/core/src/session.rs:1103-1203 | leaving sends the genuine notice when connected, and erases the group |
| GroupOutcomes.FoundingOutcome | backend/core/src/session.rs:888-958 | a new group's rows, and the one share that goes to everybody else reachable |
| GroupReplication.MoveContinues | backend/core/src/net.rs:838-939 | one move of the owner extends the stream each member sees consistently: shares carry the roster and mode, events say what changed, numbers grow |
| GroupReplication.StreamContinues | backend/core/src/session.rs:1589-1625 | so does every run of the owner without voluntary leaves |
| GroupConvergence.NextSyncs | backend/core/src/net.rs:1178-1284 | a member that processes the next frame of the stream has the rows the stream prescribes |
| GroupConvergence.OtherKeepsSync | backend/core/src/net.rs:516-688 | frames of others, refusals and join requests of anybody, replays and undecryptable frames do not put a member out of step |
| GroupConvergence.OwnKeepsSync | backend/core/src/session.rs:992-1100 | no command of the member itself, leaving aside, puts it out of step |
| GroupConvergence.MemberFollowsStream | backend/core/src/net.rs:342-407 | over any mix of the owner's next frames, harmless other frames and own commands the member is where its part of the stream puts it |
| GroupConvergence.MemberFollowsOwner | backend/core/src/net.rs:516-601 | a member in good standing at stream position k, whatever it did and received besides, has the roster, mode, key and owner that the owner had after the step that sent frame k |
| GroupConvergence.CaughtUpMembersAgree | backend/core/src/net.rs:1048-1106 | a member that was never suspended and has read everything, whatever it did and received besides, has exactly the owner's roster, metadata and session, and a removed one no rows at all |
| Contacts.ContactBook.CheckIdentity | backend/core/src/vault.rs:247-254 | first contact without a pinned key, else match or conflict |
| Contacts.ContactBook.UpsertContact | backend/core/src/vault.rs:265-291 | the uuid is always taken, the keys only where the pin allows |
| Contacts.ContactBook.AcceptIdentity | backend/core/src/net.rs:743-775 | accepts exactly well-formed bundles that do not conflict with the pin; then stores exactly the bundle, else nothing |
| Contacts.CallRespectsPin | backend/core/src/vault.rs:265-291 | no call changes a pinned key, the session key of another user, or a session key without presenting the pin |
| Contacts.PinIsForever | backend/core/src/vault.rs:256-291 | through any calls the pin stays and the session key is the old one or one presented together with the pin |
| Contacts.AcceptedKeysAgree | backend/core/src/net.rs:743-775 | no two bundles ever accepted for a user carry different identity keys |
| Framing.PrefixRoundTrip | backend/proto/src/lib.rs:280-295 | a 32-bit length is read back from its big-endian prefix |
| Framing.LengthRoundTrip | backend/proto/src/lib.rs:293-295 | any four bytes are the prefix of the length they spell |
| Framing.PrefixesCompareAsLengths | backend/proto/src/lib.rs:280-295 | the most significant byte comes first: prefixes compare like the lengths they spell |
| Framing.FrameRoundTrip | backend/proto/src/lib.rs:267-318 | a written frame is read back and exactly its own bytes are consumed, whatever follows |
| Framing.CutFrameFails | backend/proto/src/lib.rs:293-315 | a frame cut anywhere is an error |
| Framing.AnnouncedLength | backend/proto/src/lib.rs:293-318 | after any announced length: more than 16 MiB is refused whatever follows, missing bytes are an error, and else exactly the announced bytes are decoded |
| Framing.RefusedOnBothSides | backend/proto/src/lib.rs:274-301 | the writer refuses exactly the bodies whose frames the reader would |
| Framing.StreamRoundTrip | backend/proto/src/lib.rs:267-318 | any frames followed by anything are read in order, then the rest as if alone |
| Framing.CutStreamYieldsPrefix | backend/proto/src/lib.rs:288-318 | a cut stream yields the first values unchanged and then an end-of-stream error, all values only if nothing is missing |
| Framing.UnknownFrameIsSkipped | backend/core/src/net.rs:182-212 | a well-formed frame of unknown shape costs nothing but itself |
| Framing.KnownAreDelivered | backend/core/src/net.rs:182-212 | frames of known shape are all delivered, in order |
| Framing.Socket.ReadUpTo | backend/proto/src/lib.rs:308-309 | reads n bytes however they are chunked, fewer only at the end |
| Framing.Socket.ReadMsg | backend/proto/src/lib.rs:288-318 | the outcome and what remains are those of the undivided stream |
| Versions.Compare | backend/core/src/plugins.rs:756-763 | the loop decides whether the first differing place, missing ones being zero, is larger |
| Versions.NumbersCompare | backend/core/src/plugins.rs:750-754 | fields of equal width compare as numbers digit by digit, and are equal only if identical |
| Versions.LeadingZero | backend/core/src/plugins.rs:750-754 | leading zeros of a field do not matter |
| Versions.EngineSeparates | backend/core/src/plugins.rs:749-754 | dots, dashes and plus signs separate fields for the engine, and no other character does |
| Versions.NumberConcat | backend/core/src/plugins.rs:750-754 | digits are read in decimal: what stands before counts ten times more for every digit after it |
| Versions.FieldReads | backend/core/src/plugins.rs:750-754 | a field of digits below 2^63 reads as its number, and everything else as -1 |
| Versions.ClientSeparates | tui/update.go:152-164 | dots and dashes separate for the client, and the first plus sign ends what it reads |
| Versions.IsNewer | backend/core/src/plugins.rs:749-764 | the engine's order on its reading of the strings |
| Versions.ParseFields | tui/update.go:152-164 | the client's loop skips empty fields and drops everything from the first plus sign |
| Versions.IsNewerVersion | tui/update.go:132-150 | the client's order on its reading of the strings |
| Versions.StrictWeakOrder | backend/core/src/plugins.rs:749-764 | on all strings the order is irreflexive, transitive, and incomparable strings are interchangeable |
| Versions.Trichotomy | backend/core/src/plugins.rs:756-763 | exactly one of newer, older and same holds |
| Versions.FieldsCompareAsValues | backend/core/src/plugins.rs:749-764 | two strings of one field each are newer or the same exactly as the numbers they read as |
| Versions.CommentHoldsIff | backend/core/src/plugins.rs:747-764 | two fields are ordered both ways as the comment promises, numbers by value and anything else alphabetically, if and only if both are numbers, or they are identical, or one is a number and the other comes before it; two that are no numbers always tie |
| Versions.CommentFails | backend/core/src/plugins.rs:747-764 | "b" comes after "a" and is not newer |
| Versions.TrailingZero | backend/core/src/plugins.rs:749-764 | appending ".0" changes nothing in either implementation |
| Versions.SameIffAligned | tui/update.go:152-164 | the two readings are the same version exactly for aligned strings |
| Versions.AlignedAgree | tui/update.go:131-150 | on aligned strings, of any number of fields, both implementations answer alike |
| Versions.AgreementIffAligned | tui/update.go:131-164 | a string is ordered alike against all aligned ones if and only if it is aligned |
| Versions.BuildSuffixDisagrees | tui/update.go:153 | "1+d" and "1" are ordered by the engine and equal for the client |

## Left out

- Olm, Megolm, Ed25519 and hashing internals; SQL engine behaviour, file permissions, sockets, timeouts and logging.
- Floating point: buckets run over reals with a clock that does not run backwards.
- SQLite's `length` stops at a NUL; JSON text has none, so it is modelled as the number of characters.
- The client's integers are 64 bits wide in both version readers; a 32-bit client is not modelled.
- Request and reply matching in the client, and the replies to commands: no claim that a reply belongs to its request.
- Rate limits before login and on Send and publishing, the official-client policy and the device fingerprint are not steps of `Relay`; a refused command is no step there.
- Delivery beyond the channel: a writer may die with frames buffered. Order is stated per pair of connections; nothing is said about the messages of one author on several connections, whose tasks may pass each other.
- In `Relay` whether a channel takes a message is left open at each push, so that full and closed channels are both covered; `FanOut` models the capacity.
- Direct messages, and their sharing one id column with groups; chat titles, ban timestamps, reasons given for refusals, and the backfill of metadata for old groups.
- Sends that fail half-way through a client handler: handlers complete, and only peers without one-time keys are skipped.
- Session ids are numbered per group as they are minted; the randomness of real ids is assumed to keep them apart.
- VaultTables.Vault.DeleteChat: one assignment for the source's deletes table by table, and the Olm session stored under the same id is not among the rows.
- Suspensions are relative to the `now` a handler is given; join requests pass the requester's own timestamp.
- GroupConvergence.CaughtUpMembersAgree: not for members once suspended, since a later share only adds names, nor across voluntary leaves, which the owner does not announce.
- GroupConvergence.MemberFollowsStream: assumes that an arriving share's invite key belongs to no other group of the member, that no other member's genuine leave notice arrives, and that nobody else sends a user outside the group a share that claims to found it.
- GroupConvergence.MemberFollowsOwner: the same; a suspended member keeps step in its session only.
- GroupKeys.HoldersOfCurrentKey: about the owner's sessions; other members do not share theirs again with newcomers.
- GroupSpeech.OwedHoldTheKey: not for an owner who starts without a session of their own; no run from a founding, or from outside the group, leads there.
- GroupPeers.PeerHearsMember: the peer takes nothing but the member's frames meanwhile; what others and the owner do in between is the subject of `GroupConvergence`.
- GroupAuthority.OwnerIsTheOnlyAuthority: speaks of a group whose owner is known; a group without one believes the first share that names its sender owner.
- GroupReplay.NoEffectTwice: within one lifetime of the group; erasing a chat erases the guard too.
- Key pairs of an account are opaque strings; that only their owner can sign is part of what a signature means here.
- The maintenance drain, attestation, plugins, updates, the terminal user interface, the edge worker and the web site.
