# OHMF: verified models of its protocols and state machines

A Dafny 4.11 project about the OHMF messaging system: the end-to-end session protocol of the web
client, the membership and epoch bookkeeping of the gateway, the mini-app registry, and five smaller
pieces of the same system. The main results are about all inputs, all runs or all reachable states;
where the code does not meet a property, the exact condition is proved and a run shows the failure.
`dafny verify dfyconfig.toml` checks the project.

## What is modelled

**The session protocol** (`ohmf/apps/web/app.js`; X3DH sections 3.3-3.4 and Double Ratchet sections
3.3-3.5 as published by Signal). `KeySchedule` is a symbolic term algebra: key pairs are numbers,
shared secrets are unordered pairs, root keys, chain keys and message keys are constructors, and a
sealed box opens under exactly the key that sealed it. `SkippedKeys` is the bounded, insertion-ordered
store of skipped message keys. `SignalRecords` gives what one send and one receive compute,
`SignalDevices` is the mutable session and device that do it field by field and are proved against
those functions. `OutOfOrder` treats one chain delivered in any order. `SessionProtocol` is the
two-party state machine over a network that delays, reorders, drops and repeats envelopes, with the
invariant of all its steps; `SessionGuarantees` states what follows, in terms of devices and envelopes,
and `StashGuarantees` says which skipped keys a device holds at any point of a run.
`Prekeys` is the client's stock of one-time prekeys and the server's table of them.

**Conversations** (`conversations/service.go`, `devicekeys/handler.go`). `Conversations` gives the
outcome of each whole transaction, `ConversationService` runs the same transactions statement by
statement with rollback, `ConversationGuarantees` proves what every sequence of them keeps,
`MembershipGuarantees` says exactly when each of them succeeds and what it changes, and
`TreeGuarantees` when the stored tree of a group is that of its current members.

**The mini-app registry** (`services/apps`). `Versions` is the order on versions, `Registry` the state,
the tables and the effect of each request, `RegistryServer` the loops over unordered maps and the
load-mutate-save cycle, `RegistryGuarantees` the theorems about runs, and `ReviewGuarantees` says exactly
when each request succeeds, what it changes and what a withdrawn release can still do.

**Smaller pieces.** `Receipts` (checkpoints, watermarks and late acknowledgements), `ReceiptRuns`
(whole runs of a thread, with this user's own reading and server copies of messages), `EventStream` (the
server-sent event loop), `RateLimiter` (fixed windows), `Credentials` (refresh tokens and phone
verification challenges). `Options` holds the optional value.

Each stateful module separates three things: functions that say what one step does, classes or methods
that do it the way the source does (fields assigned one by one, loops over rows and map entries in any
order, rollback), and lemmas about all runs of the functions. A method's contract is the connection.

## Where the code differs from what one might expect

- A one-time prekey that was claimed but whose first message has not arrived yet is uploaded again by
  the client, and the server then makes it available again. `Prekeys.ClaimableIff` is the exact
  statement, `Prekeys.HandedOutTwice` a run in which one prekey is handed out twice.
- An opened session-opening envelope that is delivered again without the plaintext cache opens a second
  time once the receiver has left its chain, through the retry from an empty record:
  `SessionGuarantees.Redelivery` gives the exact condition, `SessionGuarantees.OpensAgain` such a run, and
  `SessionGuarantees.OpenedAgainCosts` which envelopes of the initiator still open afterwards.
- This user's own reading raises the watermarks that also mark own messages as read, and touches no
  message. So an own message can stay SENT under a read watermark (`ReceiptRuns.OwnReadLeavesBehind`),
  and an acknowledgement that arrives after the reading shows the message as READ although the peer has
  read nothing (`ReceiptRuns.LateAckTurnsRead`). `ReceiptRuns.NeverBehind`, `StaysUpToDate` and
  `OwnReadCommutes` say exactly when neither happens.
- Three calls of the client write back the thread they read before they waited for something else, so
  what arrived in the meantime is lost, receipts included: `ReceiptRuns.EffectiveRun` says what remains.
- A failed send is shown as delivered or read after any later checkpoint, because a message without a
  server order is below every checkpoint: `Receipts.FailedSendShown`. Checkpoints commute unless an SMS
  message is covered by both kinds: `Receipts.ConvergesExactly`, with `Receipts.SmsDoesNotConverge` as
  the smallest example.
- The re-consent mark of a release can only be set when another approved release carries a publication
  time that is not earlier, because the search for the previous approved release runs after the approval
  and otherwise finds the release itself: `Registry.ReconsentOnlyOnTie` is exact, and
  `Registry.LaterApprovalNeverMarks` shows it on two releases.
- Suspending a release writes the review time and note, never the two suspension columns:
  `RegistryGuarantees.ApprovedAssetsBound`.
- A request for a phone thread with a user who can encrypt may return any thread the two share, groups
  included: `ConversationGuarantees.FoundAgain`.
- The stored tree of an encrypted group, whose leaves are the recipients of its messages
  (`e2ee/group_encryption.go:53-58`), can be out of date in three ways: a ban and a joining by invite
  change the members and build no tree, and `PublishBundle` builds one only for a new signing key, so a
  new agreement key under the old signing key is missed. `TreeGuarantees.NeverStale` is the exact
  condition over runs, `TreeGuarantees.TreeOfLastRebuild` says what the tree is in any case, and
  `BannedStaysInTree`, `InvitedNotInTree` and `NewAgreementKeyMissed` are failing runs. The tree hash sent
  to clients does not show it, because it is computed afresh (`e2ee/mls.go:252-260`).
- An install takes the approved release published last, while an app names its greatest approved version.
  `RegistryGuarantees.InstallsGreatest` says when they are the same, `RegistryGuarantees.LaterBackport` is
  a run in which they are not.
- The limiter admits at most 2 * limit - 1 calls in any closed interval of one window, one less than two
  full buckets, and this bound is reached for every limit and window: `RateLimiter.BoundIsReached`.
- `UpdateEncryptionState` in `ohmf/services/gateway/internal/messages/encryption_middleware.go:378` writes
  the encryption state without touching epochs; nothing calls it and it is not part of this model.

## Model

| member | source | states |
|---|---|---|
| KeySchedule.ChainAtCompose | ohmf/apps/web/app.js:944-952 | stepping a chain m and then n times is stepping it m + n times |
| KeySchedule.MessageKeysDiffer | ohmf/apps/web/app.js:944-952 | two positions of two chains have the same message key only if chain and number are the same |
| SkippedKeys.StashAllNewest | ohmf/apps/web/app.js:1198-1209 | stashing keys with new names one by one leaves exactly the newest 64 of the old and new keys, in order |
| SkippedKeys.RemoveFacts | ohmf/apps/web/app.js:1190-1196 | taking a key removes that name and nothing else |
| SkippedKeys.LookupExactly | ohmf/apps/web/app.js:1190-1196 | a lookup finds just the keys that are in the store under that name |
| SkippedKeys.StashKnown | ohmf/apps/web/app.js:1198-1203 | a key under a name the store holds takes the place of the one there |
| SkippedKeys.StashNew | ohmf/apps/web/app.js:1204-1209 | any other key goes to the end, and of 64 keys the oldest goes |
| SkippedKeys.TakeExactly | ohmf/apps/web/app.js:1190-1196 | one entry of the name goes, the others keep their order |
| SkippedKeys.StoreIsNewestUnused | ohmf/apps/web/app.js:1190-1209 | over every run of stash and take operations, whatever their names, the store has at most 64 keys and is the newest part of the keys inserted and neither handed out nor overwritten since |
| SkippedKeys.NothingDropped | ohmf/apps/web/app.js:1198-1209 | a store never asked to hold more than 64 unused keys never loses one |
| SignalRecords.X3dhAgreement | ohmf/apps/web/app.js:2141-2163 | with the initiator's ephemeral both sides compute the same X3DH root if and only if the responder holds the identity and signed prekey of the bundle, takes the sender for who it is, and looks up precisely the one-time prekey the initiator used (or neither uses one) |
| SignalRecords.X3dhOrder | ohmf/apps/web/app.js:2148-2157 | the secrets are those of section 3.3 of X3DH in its order |
| SignalRecords.PrekeysAfterOpening | ohmf/apps/web/app.js:2466-2478 | opening an envelope marks exactly the one-time prekey a session-opening header names as consumed; no prekey comes, goes or changes its key |
| SignalRecords.SessionEstablished | ohmf/apps/web/app.js:2165-2235 | the first message opens, both roots are equal, the receive chain is the send chain, only the responder has a rotation pending, and of its prekeys just the claimed one becomes consumed |
| SignalRecords.SessionReplaced | ohmf/apps/web/app.js:2522-2530 | the first message of a newly set up initiator opens through the single retry whatever session the responder holds, and leaves the device a responder without a session would have |
| SignalRecords.SendExactly | ohmf/apps/web/app.js:2195-2235 | when a send fails and, otherwise, the header, the key and the one session record it leaves |
| SignalRecords.OpeningsCross | ohmf/apps/web/app.js:2453-2491 | a device that has opened a session of its own and received nothing on it opens the peer's first message all the same, takes the peer's root and chain, and is due to rotate |
| SignalRecords.ReceiveAhead | ohmf/apps/web/app.js:2492-2506 | a message at or past the count yields the sender's key at its number and stashes the keys passed over |
| SignalDevices.Session.TakeSkippedMessageKey | ohmf/apps/web/app.js:1190-1196 | returns the stored key of that name and removes just that entry |
| SignalDevices.Session.StashSkippedMessageKey | ohmf/apps/web/app.js:1198-1209 | assigns the key in place of an existing name or at the end, then drops the oldest keys over 64 |
| SignalDevices.Session.RotateSendingRatchet | ohmf/apps/web/app.js:2195-2209 | a rotation derives the next root and sending chain, restarts the count and clears the pending flag; without a remote key nothing changes |
| SignalDevices.Session.Enter | ohmf/apps/web/app.js:2453-2491 | the record and prekeys after the chain of a ratchet key has been made current, with or without an X3DH opening |
| SignalDevices.Session.SkipTo | ohmf/apps/web/app.js:2496-2501 | the skip loop ends at the target with the chain stepped that far and every key passed over stashed under its own number; it terminates with target minus count |
| SignalDevices.Session.ReceiveKey | ohmf/apps/web/app.js:2451-2506 | the message key of an envelope from the stash or the chain, or the missing-key error |
| SignalDevices.CryptoDevice.AdvanceSendingRatchet | ohmf/apps/web/app.js:2211-2235 | one send: header, message key and stored record for a new, a rotated or a continued session |
| SignalDevices.CryptoDevice.DecryptWithSession | ohmf/apps/web/app.js:2446-2521 | one attempt works on a copy: the device does not change and the outcome carries the device to store |
| SignalDevices.CryptoDevice.DecryptEnvelope | ohmf/apps/web/app.js:2439-2531 | decryption with the single retry; a failure leaves the whole device as it was |
| OutOfOrder.OutOfOrderDelivery | ohmf/apps/web/app.js:2451-2506 | for every permutation of the remaining messages of a chain, whether the receiver is on it or enters it with whichever arrives first, all of them open if and only if never more than 64 earlier numbers are outstanding; then the receiver ends at the sender's chain key and count with no key of the chain left over |
| OutOfOrder.WithinBound | ohmf/apps/web/app.js:1190-1209 | while at most 64 numbers are outstanding the chain's stash is exactly the missing keys, whatever older keys the store holds, for current and for newly entered chains |
| OutOfOrder.Overflow | ohmf/apps/web/app.js:1204-1207 | passing the bound drops a missing key, which then can never be recovered |
| OutOfOrder.DeviceFollows | ohmf/apps/web/app.js:2446-2530 | delivering a chain changes one session record of the device and nothing else |
| SessionProtocol.RunInv | ohmf/apps/web/app.js:2195-2531 | every world of every run satisfies the invariant of the protocol |
| SessionProtocol.StepKeeps | ohmf/apps/web/app.js:2195-2531 | every send, delivery and new prekey keeps the invariant |
| SessionProtocol.DeliverKeeps | ohmf/apps/web/app.js:2446-2530 | an envelope opens exactly when its position in the history fits, and opening it keeps the invariant |
| SessionProtocol.FailedDelivery | ohmf/apps/web/app.js:2522-2530 | an envelope that does not fit fails with no second attempt and changes nothing |
| SessionProtocol.OldChain | ohmf/apps/web/app.js:2453-2491 | a late message of an older chain without a stashed key derives a key from a deeper root, so its box does not open |
| SessionProtocol.StashedKey | ohmf/apps/web/app.js:1190-1196 | what the stash holds under the name of an envelope is the key of that envelope, which has not been opened yet |
| SessionGuarantees.Lockstep | ohmf/apps/web/app.js:2195-2235 | once the responder has joined, either the roots are equal and exactly one side has a rotation pending, or one root is exactly one root step ahead and neither side has |
| SessionGuarantees.ChainsAgree | ohmf/apps/web/app.js:2446-2506 | in every reachable state the receive chain key at count n is the peer's matching chain at n: every later envelope of that chain is sealed with the key derived at that distance, and the peer's own chain key is that many steps ahead |
| SessionGuarantees.NoKeyReuse | ohmf/apps/web/app.js:2195-2235 | over every run no two envelopes have the same pair of ratchet key and message number, nor the same message key |
| SessionGuarantees.OpensExactly | ohmf/apps/web/app.js:2446-2531 | an envelope not opened before opens if and only if its key is stashed, or it is at or past the count of the current chain, or its chain is newer (without a session: if and only if it opens one); then the content is what was sealed, otherwise the world is unchanged |
| SessionGuarantees.LateMessage | ohmf/apps/web/app.js:2446-2530 | a message of a superseded chain opens if and only if its key is still stashed |
| StashGuarantees.StashIsTail | ohmf/apps/web/app.js:1190-1209 | in every reachable state the stash is the newest part, in sending order, of the keys of the envelopes read past and not opened |
| StashGuarantees.StashedExactly | ohmf/apps/web/app.js:1190-1209 | over every run a key is held if and only if its envelope was read past, is not opened and was never pushed out by 64 newer ones |
| StashGuarantees.LateMessageExactly | ohmf/apps/web/app.js:2446-2530 | over every run a late message of a superseded chain opens if and only if the receiver had read past it before leaving the chain and its key was not pushed out |
| SessionGuarantees.Redelivery | ohmf/apps/web/app.js:2522-2530 | an envelope opened before and delivered again without the plaintext cache opens if and only if it carries the session opening and the receiver has left its chain |
| SessionGuarantees.OpensAgain | ohmf/apps/web/app.js:2522-2530 | from every start with any new keys: after three turns the first envelope, opened already, opens again |
| SessionGuarantees.OpenedAgainCosts | ohmf/apps/web/app.js:2522-2530 | in every reachable state: after an opened envelope has opened again, an envelope of the initiator opens if and only if it is a later one of the first chain, so none on a newer ratchet key does |
| SessionGuarantees.PrekeyConsumed | ohmf/apps/web/app.js:2466-2478 | over every run a one-time prekey is consumed if and only if it was at the start or an opened session-opening envelope carries it; prekeys do not go away and keep their keys |
| SessionGuarantees.StoreSound | ohmf/apps/web/app.js:1190-1209 | the stash of every reachable session has at most 64 keys under distinct names, each the key of an envelope of the peer not opened yet (which of them it holds: `StashGuarantees.StashedExactly`) |
| Prekeys.PrekeyStock.TopUp | ohmf/apps/web/app.js:1352-1363 | tops the stock up to the minimum under consecutive new ids and never reuses or changes an id |
| Prekeys.PrekeyTable.InsertPrekeys | ohmf/services/gateway/internal/devicekeys/handler.go:709-727 | stores every uploaded prekey as available, or nothing when one item is invalid |
| Prekeys.PrekeyTable.ClaimOldest | ohmf/services/gateway/internal/devicekeys/handler.go:650-663 | claims an oldest unclaimed prekey of the device, if there is one |
| Prekeys.PrekeyTable.ClaimBundles | ohmf/services/gateway/internal/devicekeys/handler.go:647-671 | fills in one claimed prekey for each bundle that has one left; exactly those rows become consumed |
| Prekeys.ClaimableIff | ohmf/services/gateway/internal/devicekeys/handler.go:650-727 | over every run a prekey is claimable if and only if it was uploaded and not claimed since |
| Prekeys.HandedOutOnce | ohmf/services/gateway/internal/devicekeys/handler.go:650-727 | the same prekey is handed out twice only if it was uploaded again in between |
| Prekeys.HandedOutTwice | ohmf/services/gateway/internal/devicekeys/handler.go:709-727 | upload, claim, upload, claim is a run for every device and valid prekey: the same prekey is handed out twice |
| Prekeys.RowHistory | ohmf/services/gateway/internal/devicekeys/handler.go:715-720 | over every run a row holds the public key uploaded last under its id, whatever was claimed, and the time of the first upload |
| Prekeys.FirstUploadedFirst | ohmf/services/gateway/internal/devicekeys/handler.go:650-663 | a claim takes a claimable prekey, no other claimable one was first uploaded before, and afterwards it is not claimable |
| Prekeys.NothingLeft | ohmf/services/gateway/internal/devicekeys/handler.go:650-671 | a claim finds nothing only if every prekey of the device was claimed since its last upload |
| Prekeys.StoredAreValid | ohmf/services/gateway/internal/devicekeys/handler.go:710-713 | every stored prekey has a positive id and a key |
| ConversationService.DedupeUsers | ohmf/services/gateway/internal/conversations/service.go:1801-1818 | every user named once, no other |
| ConversationService.InitialRows | ohmf/services/gateway/internal/conversations/service.go:137-151 | the creator of a group is its owner, everyone else a member |
| ConversationService.EncryptionColumns | ohmf/services/gateway/internal/conversations/service.go:850-875 | the flag, state and epoch columns an encryption update writes |
| ConversationService.Service.CreateConversation | ohmf/services/gateway/internal/conversations/service.go:100-161 | the created conversation: groups are encrypted at epoch one with a tree |
| ConversationService.Service.UpdateMetadata | ohmf/services/gateway/internal/conversations/service.go:788-899 | turning encryption on or off, refused unless every member is ready; the tree is rebuilt whenever MLS is on afterwards |
| ConversationService.Service.AddMembers | ohmf/services/gateway/internal/conversations/service.go:1058-1131 | the loop adds everyone named or, at the first banned user, rolls everything back; epochs and tree move only if someone was really added |
| ConversationService.Service.InsertUnbanned | ohmf/services/gateway/internal/conversations/service.go:1076-1099 | the loop finds a banned user if and only if one is named, and otherwise joins exactly the users named |
| ConversationService.Service.UpdateMemberRole | ohmf/services/gateway/internal/conversations/service.go:1133-1186 | an owner changes a role unless that would leave no owner |
| ConversationService.Service.RemoveMember | ohmf/services/gateway/internal/conversations/service.go:1188-1267 | removes a member unless it is the last owner, with new epochs and tree |
| ConversationService.Service.BanMember | ohmf/services/gateway/internal/conversations/service.go:1649-1698 | bans and removes a member unless it is the last owner |
| ConversationService.Service.UnbanMember | ohmf/services/gateway/internal/conversations/service.go:1700-1718 | lifts one ban |
| ConversationService.Service.CreateInvite | ohmf/services/gateway/internal/conversations/service.go:1469-1518 | a new invite with at least one use and a lifetime of seven days unless given |
| ConversationService.Service.RedeemInvite | ohmf/services/gateway/internal/conversations/service.go:1571-1647 | a live invite joins a user who is neither a member nor banned and counts the use; a member changes nothing |
| ConversationService.Service.BumpEncryptedEpoch | ohmf/services/gateway/internal/conversations/service.go:2000-2016 | both epochs of an encrypted group rise by one, other conversations stay |
| ConversationService.Service.SyncTree | ohmf/services/gateway/internal/conversations/service.go:1960-1979 | the tree of the current members is stored under the given epoch |
| ConversationService.Service.PublishBundle | ohmf/services/gateway/internal/devicekeys/handler.go:287-462 | stores the keys, converts carrier threads, and on a changed fingerprint moves every encrypted conversation of the user on |
| ConversationService.Service.RebuildTrees | ohmf/services/gateway/internal/devicekeys/handler.go:426-452 | rebuilds the tree of every MLS group of the user, in any row order, and touches nothing else |
| ConversationService.Service.VerifyPhone | ohmf/services/gateway/internal/auth/handler.go:386-409 | a sign-in adds the device and joins the user to every thread with that external contact |
| ConversationGuarantees.AlwaysSound | ohmf/services/gateway/internal/conversations/service.go:788-899 | in every reachable database MLS is on exactly for encrypted groups, then 1 <= mls epoch <= encryption epoch with a tree stored for it, every group has an owner, nobody is a member and banned, and no invite is overused |
| ConversationGuarantees.EpochsNeverFall | ohmf/services/gateway/internal/conversations/service.go:2000-2016 | over every run conversations never vanish and their encryption epoch never decreases |
| ConversationGuarantees.FallbackNeverTaken | ohmf/services/gateway/internal/conversations/service.go:878-886 | in every reachable state the fallback for a missing MLS epoch is dead code |
| ConversationGuarantees.BannedStayOut | ohmf/services/gateway/internal/conversations/service.go:1614-1628 | a banned user is not a member again before the ban is lifted, over every run |
| ConversationGuarantees.AddMembersAdvances | ohmf/services/gateway/internal/conversations/service.go:1076-1118 | adding succeeds exactly for a manager of a group naming no banned user; a real change of an encrypted group raises both epochs by one and stores a tree of exactly the new members, no change leaves everything alone |
| ConversationGuarantees.RemoveMemberAdvances | ohmf/services/gateway/internal/conversations/service.go:1226-1247 | removing raises both epochs of an encrypted group by one and stores a tree in which no leaf belongs to the user who left |
| ConversationGuarantees.NewKeyReachesGroups | ohmf/services/gateway/internal/devicekeys/handler.go:405-456 | after a changed signing fingerprint every encrypted conversation of the device's owner is one epoch further and every group among them has a tree holding the new agreement key; conversations of others are untouched |
| TreeGuarantees.RebuildsCurrent | ohmf/services/gateway/internal/conversations/service.go:1960-1979 | creating a group, an update that leaves encryption on, a real change of the member list and a new signing key store the tree of the members and devices of that moment, whatever it was before |
| TreeGuarantees.TreeStep | ohmf/services/gateway/internal/conversations/service.go:1571-1698 | a request leaves a current tree current if and only if: a banned user, or one joining by invite, has no device that can encrypt, and keys published by a member under the same signing key have the same agreement key; every other request does |
| TreeGuarantees.NeverStale | ohmf/services/gateway/internal/e2ee/group_encryption.go:53-58 | over every run all stored trees are always those of the current members and keys if and only if every request meets that guard |
| TreeGuarantees.TreeOfLastRebuild | ohmf/services/gateway/internal/e2ee/mls.go:183-250 | over every run the stored tree is that of the members and devices at its last rebuild, so it is current if and only if these give the leaves of now |
| TreeGuarantees.BanLeavesLeaves | ohmf/services/gateway/internal/conversations/service.go:1649-1698 | after a ban a current tree holds exactly the banned user's leaves too many, under the old epoch |
| TreeGuarantees.InviteLacksLeaves | ohmf/services/gateway/internal/conversations/service.go:1571-1647 | after a joining by invite it holds exactly the new member's leaves too few, under the old epoch |
| TreeGuarantees.SameSigningKey | ohmf/services/gateway/internal/devicekeys/handler.go:896-903 | in every reachable database new keys under the same signing key change no group; its current tree stays current if and only if the owner is no member or the agreement key is the same |
| TreeGuarantees.BannedStaysInTree | ohmf/services/gateway/internal/conversations/service.go:1649-1698 | the failing run for a ban: two users publish, one creates a group and bans the other, whose leaf stays at epoch one |
| TreeGuarantees.InvitedNotInTree | ohmf/services/gateway/internal/conversations/service.go:1571-1647 | the failing run for an invite: the new member can encrypt and has no leaf |
| TreeGuarantees.NewAgreementKeyMissed | ohmf/services/gateway/internal/devicekeys/handler.go:405-456 | the failing run for a new agreement key: neither epoch nor tree changes |
| ConversationGuarantees.InviteAccounting | ohmf/services/gateway/internal/conversations/service.go:1580-1639 | over every run an invite's use count equals the joins it caused, never exceeds its limit, and at the limit it admits nobody |
| ConversationGuarantees.FoundAgain | ohmf/services/gateway/internal/conversations/service.go:167-306 | asking for a phone thread creates one exactly when there is no candidate; the second time nothing is created and the candidates are the same, after a creation just the new thread |
| ConversationGuarantees.CarrierThreadsConverted | ohmf/services/gateway/internal/devicekeys/handler.go:373-404 | after signing in with a number and publishing keys no thread of the user goes to that number by carrier, and the user is a member of all that did |
| MembershipGuarantees.ChangeRoleExactly | ohmf/services/gateway/internal/conversations/service.go:1133-1186 | an owner, and nobody else, sets the role of a member unless that would leave no owner; just that role changes |
| MembershipGuarantees.RemoveExactly | ohmf/services/gateway/internal/conversations/service.go:1188-1267 | members leave, owners remove anyone and administrators plain members, but never the only owner; just that member goes |
| MembershipGuarantees.BanExactly | ohmf/services/gateway/internal/conversations/service.go:1649-1698 | owners ban anyone and administrators plain members, but never the only owner; the member is out and banned, epochs and tree stay |
| MembershipGuarantees.UnbanExactly | ohmf/services/gateway/internal/conversations/service.go:1700-1718 | managers lift one ban |
| MembershipGuarantees.InviteExactly | ohmf/services/gateway/internal/conversations/service.go:1469-1518 | managers invite under a new code: the uses given or one, the lifetime given or seven days |
| MembershipGuarantees.RedeemExactly | ohmf/services/gateway/internal/conversations/service.go:1571-1647 | an invite works until it is revoked, expires or is used up, for anyone neither a member nor banned; it joins a plain member and counts the use, and does nothing to a member |
| MembershipGuarantees.CreateExactly | ohmf/services/gateway/internal/conversations/service.go:100-161 | who is in a new conversation, who owns it and how it is encrypted |
| MembershipGuarantees.AddExactly | ohmf/services/gateway/internal/conversations/service.go:1058-1131 | managers add anyone not banned, as plain members; those in the group keep their roles |
| MembershipGuarantees.UpdateExactly | ohmf/services/gateway/internal/conversations/service.go:788-899 | who may update a conversation, when encryption is refused, and every column afterwards in each sound database |
| MembershipGuarantees.PublishExactly | ohmf/services/gateway/internal/devicekeys/handler.go:287-462 | users publish for their own capable devices; what happens to each conversation |
| MembershipGuarantees.VerifyExactly | ohmf/services/gateway/internal/auth/handler.go:386-409 | the new device, and plain membership of just the threads with that contact |
| MembershipGuarantees.PhoneDmExactly | ohmf/services/gateway/internal/conversations/service.go:167-306 | found or created: a direct conversation of two with a user who can encrypt, else a carrier thread |
| MembershipGuarantees.OutsidersSeeNothing | ohmf/services/gateway/internal/conversations/service.go:1133-1145 | to someone who is not a member every conversation looks like one that does not exist |
| MembershipGuarantees.MembersRefused | ohmf/services/gateway/internal/conversations/service.go:1133-1267 | why a member is refused |
| MembershipGuarantees.EpochColumns | ohmf/services/gateway/internal/conversations/service.go:2000-2016 | only an encrypted group has epochs to raise |
| MembershipGuarantees.OwnersMadeByOwners | ohmf/services/gateway/internal/conversations/service.go:1133-1186 | over every run an owner created the group or was made one by an owner |
| Versions.GreaterIsTotalOrder | ohmf/services/apps/registry.go:822-842 | the order is strict and total on versions |
| Versions.ParseOfTriple | ohmf/services/apps/registry.go:826-830 | the numbers of a written version are read back, with or without a prerelease part; from the first that does not fit 63 bits on they read as zero |
| Versions.ParseOfShort | ohmf/services/apps/registry.go:826-830 | numbers that are not written read as zero |
| Versions.NumericPrecedence | ohmf/services/apps/registry.go:831-841 | versions whose numbers fit 63 bits are compared number by number |
| Versions.SuffixPrecedence | ohmf/services/apps/registry.go:841 | with equal numbers one version is above another if and only if its suffix is larger at the first difference or goes on where the other ends: 1.0.0-beta above 1.0.0-alpha above 1.0.0 |
| Versions.AboveNone | ohmf/services/apps/registry.go:822-825 | any version takes the place of none |
| Versions.LatestIsUnique | ohmf/services/apps/registry.go:809-820 | a set of versions has one maximum, so every way of searching finds the same |
| Registry.SaveLoadRoundTrip | ohmf/services/apps/registry.go:351-648 | loading what was saved returns the same apps, releases and installs, up to the two fields without a column and users without installs |
| Registry.RoundTripExact | ohmf/services/apps/registry.go:351-648 | the round trip is the identity if and only if no re-consent mark is set, every user listed has an install and the pointers are right |
| Registry.ReconsentOnlyOnTie | ohmf/services/apps/handlers.go:808-846 | approving can set the re-consent mark if and only if another approved release that the search can still return, published no earlier or without a time, asks for a narrower list of permissions |
| Registry.LaterApprovalNeverMarks | ohmf/services/apps/handlers.go:837-846 | with one published release and one asking for more, the mark can be set if and only if the approval is not later than that publication |
| RegistryServer.RefreshLatestPointers | ohmf/services/apps/registry.go:809-820 | for every iteration order the pointers end at the greatest version and the greatest approved version |
| RegistryServer.LatestApprovedRelease | ohmf/services/apps/handlers.go:1074-1085 | for every iteration order an approved release than which no approved one was published later, or none if there is none |
| RegistryServer.ManifestPermissions | ohmf/services/apps/registry.go:856-886 | every non-empty permission once, in ascending order |
| RegistryServer.PermissionDelta | ohmf/services/apps/registry.go:888-913 | exactly the permissions the candidate adds and removes, each in ascending order |
| RegistryServer.AscendingUnique | ohmf/services/apps/registry.go:888-913 | a list in ascending order is determined by its contents, so the three lists above are |
| RegistryServer.LoadState | ohmf/services/apps/registry.go:351-506 | the state of the tables, for every row order; a release without an app is skipped |
| RegistryServer.SaveState | ohmf/services/apps/registry.go:508-648 | exactly the rows of the state, for every iteration order |
| RegistryServer.AppsServer.Save | ohmf/services/apps/registry.go:508-648 | what the next request will load from the tables |
| RegistryServer.AppsServer.Register | ohmf/services/apps/handlers.go:212-286 | registering a manifest: a new release, nothing for the same content again, a conflict for other content |
| RegistryServer.AppsServer.CreateApp | ohmf/services/apps/handlers.go:606-634 | a new app without releases, unless the id is taken |
| RegistryServer.AppsServer.CreateRelease | ohmf/services/apps/handlers.go:666-704 | a new draft release by the owner or an administrator |
| RegistryServer.AppsServer.Transition | ohmf/services/apps/handlers.go:783-874 | one review step of a release, and which release the search for the previous approved one found |
| RegistryServer.AppsServer.InstallApp | ohmf/services/apps/handlers.go:379-422 | installs the newest approved release, or leaves the install alone when consent is missing |
| RegistryServer.AppsServer.UninstallApp | ohmf/services/apps/handlers.go:447-460 | removes one install |
| RegistryGuarantees.PointersAlwaysCorrect | ohmf/services/apps/handlers.go:666-704 | both version pointers of every app are right in every loaded state and after every request |
| RegistryGuarantees.ReleasesNeverChange | ohmf/services/apps/handlers.go:212-286 | over every run apps and releases never vanish and a release keeps its manifest, digests, origins, publisher and creation time |
| RegistryGuarantees.InstallsNameReleases | ohmf/services/apps/handlers.go:379-422 | every install of every reachable state names an existing release of an existing app |
| RegistryGuarantees.ApprovalNeverBlocked | ohmf/services/apps/handlers.go:808-816 | the immutability check never fails in a reachable state |
| RegistryGuarantees.ApprovedAssetsBound | ohmf/services/apps/handlers.go:818-835 | over every run a release approved in review carries the digest of its own content hash and origins and keeps it, any other carries none, and the suspension columns stay empty |
| RegistryGuarantees.ConsentSafety | ohmf/services/apps/handlers.go:379-422 | between two moments with no uninstall and no accepted change in between, the installed permissions of a user never grow |
| RegistryGuarantees.InstallPicksNewest | ohmf/services/apps/handlers.go:379-422 | an install ends on the approved release with the latest publication time, or is held back exactly when it would add a permission that was not accepted |
| RegistryGuarantees.InstallsGreatest | ohmf/services/apps/handlers.go:1074-1085 | in every reachable state an accepted install can end on the version named as latest approved if and only if no approved one was published later, and always does if and only if all others were published earlier |
| RegistryGuarantees.LaterBackport | ohmf/services/apps/registry.go:809-820 | a run with a smaller version published after a greater one: the greater is named, every install takes the smaller |
| ReviewGuarantees.ReviewAllowed | ohmf/services/apps/handlers.go:770-816 | a review succeeds exactly for an administrator, or an owner who submits or revokes, on an existing release, not back to draft, and for an approval with an unchanged manifest |
| ReviewGuarantees.ReviewEffect | ohmf/services/apps/handlers.go:783-874 | the release ends with the status asked for, each moment and the note are written by the reviews they belong to, and every other column, release, app and install stays |
| ReviewGuarantees.ReviewRefused | ohmf/services/apps/handlers.go:770-800 | why a review is refused |
| ReviewGuarantees.MarkExactly | ohmf/services/apps/handlers.go:837-846 | when a review sets the re-consent mark, and which permissions it remembers |
| ReviewGuarantees.StatusIsLastReview | ohmf/services/apps/handlers.go:796-861 | over every run the status of a release is the one its last successful review asked for |
| ReviewGuarantees.WithdrawnStaysOut | ohmf/services/apps/handlers.go:847-857 | from a review that revokes, suspends, rejects or sends back a release until its next approval no search returns it, it is not the latest approved version, and nobody gets it who did not have it |
| ReviewGuarantees.RegisterAllowed | ohmf/services/apps/handlers.go:238-246 | who may register a manifest, and when the same version is a conflict |
| ReviewGuarantees.RegisterEffect | ohmf/services/apps/handlers.go:215-286 | the same content changes nothing; a new version is added with every column given, approved at once only from development |
| ReviewGuarantees.CreateAppExactly | ohmf/services/apps/handlers.go:606-634 | when an app is created and what it starts with |
| ReviewGuarantees.CreateReleaseExactly | ohmf/services/apps/handlers.go:666-704 | when a draft release is created and what it starts with |
| ReviewGuarantees.InstallExactly | ohmf/services/apps/handlers.go:379-422 | when an install succeeds, is held back or goes through, and what the user then has |
| ReviewGuarantees.UninstallExactly | ohmf/services/apps/handlers.go:447-460 | when an uninstall succeeds; just that install goes |
| ReviewGuarantees.RequestsRefused | ohmf/services/apps/handlers.go:212-246 | why the other requests are refused |
| ReviewGuarantees.ExpansionExactly | ohmf/services/apps/handlers.go:1106-1122 | a longer list with something new in it; an exchange of permissions goes unnoticed |
| ReviewGuarantees.SemVerForm | ohmf/services/apps/registry.go:24 | everything of the form number.number.number with an optional prerelease part is a version |
| ReviewGuarantees.SemVerParts | ohmf/services/apps/registry.go:24 | every version has that form |
| Receipts.CheckpointsSettle | ohmf/apps/web/app.js:5436-5472 | after any run of checkpoints every OHMF message has its closed-form status |
| Receipts.WatermarksSettle | ohmf/apps/web/app.js:5458-5468 | a watermark covers an order exactly when it did before or a checkpoint of its kind does |
| Receipts.CheckpointsConverge | ohmf/apps/web/app.js:5436-5472 | the same checkpoints in any order and with any repetitions leave the same thread, as long as no SMS message is covered by both kinds |
| Receipts.SmsSettle | ohmf/apps/web/app.js:5440-5457 | for an SMS message the last checkpoint that covers it decides |
| Receipts.ConvergesExactly | ohmf/apps/web/app.js:5436-5472 | all orders of a list of checkpoints agree on a thread if and only if none of its own SMS messages is covered by both a READ and another checkpoint |
| Receipts.TwoMaxima | ohmf/apps/web/app.js:5436-5472 | from zero watermarks the status depends on the two maxima only |
| Receipts.SmsDoesNotConverge | ohmf/apps/web/app.js:4374-4392 | the smallest example for it: one SMS message and two checkpoints |
| Receipts.AckCommutes | ohmf/apps/web/app.js:6953-6976 | an acknowledgement commutes with every checkpoint |
| Receipts.AckAnywhere | ohmf/apps/web/app.js:6953-6976 | a late acknowledgement before, between or after the checkpoints gives the same thread |
| Receipts.AckedStatus | ohmf/apps/web/app.js:6953-6976 | the row an acknowledgement leaves under the final id, with or without a new id: the acknowledged message with the status its order and the final watermarks ask for, if and only if no row with that id stood in front of it; otherwise that row as it was |
| Receipts.FailedSendShown | ohmf/apps/web/app.js:5440-5457 | after a failed send and any run of checkpoints the message shows the failure if and only if it was not numbered below a watermark and no checkpoint covers its order, whatever its transport |
| Receipts.PatchedSms | ohmf/apps/web/app.js:4387-4393 | a patched SMS message shows a failed send or nothing, whatever the patch says |
| ReceiptRuns.NeverBehind | ohmf/apps/web/app.js:5436-5500 | over every run of receipts, acknowledgements, sends, own reading, server copies and reloads, including calls that write back an old thread, no numbered OHMF message is shown behind the watermarks if and only if every event meets its guard: receipts and acknowledgements always do, own reading only when everything below is read already, a server copy only with the status the watermarks ask for |
| ReceiptRuns.EffectiveRun | ohmf/apps/web/app.js:5306-5323 | every run ends where the run of its effective events ends: a call that writes back the thread it was given (own reading, reloading, editing) wipes out all that happened while it lasted |
| ReceiptRuns.StaysUpToDate | ohmf/apps/web/app.js:6046-6063 | a message that no effective event replaces ends with the status of the peer's effective receipts, and is up to date if and only if these cover it wherever this user's own reading does |
| ReceiptRuns.OwnReadLeavesBehind | ohmf/apps/web/app.js:6046-6063 | the failing run: an own message, an incoming one at or past it, and this user reads it; receipts of the peer that arrive during the call are lost |
| ReceiptRuns.OwnReadCommutes | ohmf/apps/web/app.js:6953-6976 | own reading and an acknowledgement commute if and only if the acknowledged order is below the read watermark already, or past what was read, or READ anyway |
| ReceiptRuns.LateAckTurnsRead | ohmf/apps/web/app.js:5474-5488 | without any receipt the same send, incoming message, own reading and acknowledgement show READ in one order and SENT in the other |
| ReceiptRuns.SortIsStable | ohmf/apps/web/app.js:4356-4358 | the list is in time order and messages of one moment keep their order |
| ReceiptRuns.CopyContents | ohmf/apps/web/app.js:4353-4366 | a server copy replaces what had its id and nothing else |
| ReceiptRuns.LastIncomingExactly | ohmf/apps/web/app.js:6048 | own reading looks for the last numbered incoming message of the list |
| ReceiptRuns.RestoredAndRemapped | ohmf/apps/web/app.js:4237-4242 | restoring keeps the watermarks and all but the SMS states; mapping anew forgets the watermarks |
| EventStream.Split | ohmf/apps/web/app.js:5814-5815 | the complete lines and the remainder of the buffer |
| EventStream.Stream.Receive | ohmf/apps/web/app.js:5810-5834 | one chunk: the new buffer, event name, data lines and dispatched events |
| EventStream.LinesOfParts | ohmf/apps/web/app.js:5813-5815 | a text cut anywhere, even between carriage return and line feed, has the same lines |
| EventStream.ChunksDoNotMatter | ohmf/apps/web/app.js:5806-5834 | for every way of cutting a stream into chunks the reader ends where one pass over the whole text ends |
| EventStream.JoinIsPayload | ohmf/apps/web/app.js:5819 | the payload splits at its line feeds into just the data lines, and is empty without any |
| EventStream.TrimPadded | ohmf/apps/web/app.js:5827-5832 | trimming takes exactly the white space at both ends away |
| EventStream.EventsRoundTrip | ohmf/apps/web/app.js:5817-5833 | events written with either line ending, padded, with comments and other fields anywhere, and cut into any chunks are dispatched one for one, each under the last name given or the default and with a payload that splits into its data lines |
| RateLimiter.Limiter.Allow | ohmf/services/gateway/internal/discovery/handler.go:181-199 | the decision on one call and the new bucket of its key; other keys keep theirs |
| RateLimiter.Limiter.AllowRequest | ohmf/services/gateway/internal/discovery/handler.go:174-179 | without a positive limit and window every call is allowed and nothing is counted |
| RateLimiter.WindowBound | ohmf/services/gateway/internal/discovery/handler.go:181-199 | for every non-decreasing clock a bucket admits at most limit calls and no closed interval of one window holds 2 * limit allowed calls of a key |
| RateLimiter.BoundIsReached | ohmf/services/gateway/internal/discovery/handler.go:187-191 | for every positive limit and window a run has 2 * limit - 1 allowed calls in one window |
| RateLimiter.RefusedOnlyWhenFull | ohmf/services/gateway/internal/discovery/handler.go:193-195 | a refused call had limit allowed calls of its key within the last window |
| RateLimiter.OtherKeysIrrelevant | ohmf/services/gateway/internal/discovery/handler.go:187-198 | the decisions on a key are those of a run of its own calls alone |
| Credentials.TokenTable.RefreshTokens | ohmf/services/gateway/internal/auth/handler.go:616-652 | a usable token is revoked and replaced by one of the same user and device, any other is refused and nothing changes |
| Credentials.TokenTable.RevokeRefreshTokens | ohmf/services/gateway/internal/auth/handler.go:668-683 | a logout revokes exactly the tokens of the device, or of all devices of the user |
| Credentials.RefreshConserves | ohmf/services/gateway/internal/auth/handler.go:616-652 | a refresh keeps the number of usable tokens of the device exactly when the new lifetime is positive, and no other device is affected |
| Credentials.AcceptedOnce | ohmf/services/gateway/internal/auth/handler.go:616-652 | over every run each refresh token is accepted at most once |
| Credentials.TokenOrigin | ohmf/services/gateway/internal/auth/handler.go:616-652 | over every run each token was issued by a sign-in or by an accepted refresh with a token of the same user and device, and still has the user, device and expiry of that moment |
| Credentials.OneTokenPerSignIn | ohmf/services/gateway/internal/auth/handler.go:616-683 | over every run a device holds exactly one unspent token for each sign-in since its last logout |
| Credentials.LogoutLeavesNone | ohmf/services/gateway/internal/auth/handler.go:668-683 | after a logout without a device every token of the user stays revoked until the next sign-in |
| Credentials.ChallengeTable.VerifyPhone | ohmf/services/gateway/internal/auth/handler.go:331-370 | one attempt on a challenge: not found, expired, a wrong code that costs an attempt, or accepted |
| Credentials.AcceptedExactly | ohmf/services/gateway/internal/auth/handler.go:331-370 | an attempt is accepted if and only if the code is right and in time, no attempt was accepted before and fewer wrong codes were entered than the challenge allows |

## Left out

Hypotheses of the session protocol, because the code needs them:

- One initiator per device pair: both sides opening a session at the same time is not a run of `SessionProtocol`; what the first message then does is `SignalRecords.OpeningsCross`.
- Generated key pairs are new, and primitives are ideal: distinct derivations give distinct keys, a box opens under its own key only, signatures and the outer envelope encryption are not modelled.
- An envelope opened once is answered from the plaintext cache (app.js:2547) and does not reach the ratchet again; `SessionGuarantees.Redelivery` says what happens without the cache.
- Decrypts on one device are serial (app.js:1589-1597), so a delivery is one step.
- `previous_chain_length` is sent but not used on receive, as in the code, so keys of an old chain that were not skipped before a ratchet step cannot be recovered.
- The server hands out bundles that match the device's keys, and one-time prekeys of a device are never deleted.

Contracts that say less than the code does:

- ConversationService.Service.SyncTree: the stored tree is its epoch and its set of leaves; the sorted order of the leaves and the serialised bytes are a function of that set and not modelled.
- ConversationGuarantees.FoundAgain: does not say which of several candidates is returned (the one updated last), because update times are not modelled.
- Registry.SaveLoadRoundTrip: timestamps are whole microseconds, the precision of their columns.
- RegistryServer.AppsServer.Transition: the asset-set digest stands for the texts it is computed from; that their concatenation could be split differently is not modelled.
- Prekeys.PrekeyTable.ClaimOldest: of several prekeys stored at the same instant any one may be claimed.

Not modelled:

- The P-256 ratchet of earlier bundles (app.js:2660-2766), MLS epoch secrets, groups of devices and backups: the same shape as the main ratchet, or not shown.
- The choice among several owned device states when decrypting (the second closure, app.js:2792-2886, runs the same steps on the device it has picked).
- Parsing and trimming of request texts (conversation type, role, encryption state, invite code, permissions, manifests): values arrive parsed; an unparsable user id is an item without a user.
- Titles, avatars, settings versions, audit and membership-change log rows, notifications, transport and effect policies: no epoch, role or ban depends on them.
- Conversations created while messages are sent by phone number (messages/service.go:3395-3480): plain threads like those of `FindOrCreatePhoneDm`.
- The signature check before an approval.
- The file backend of the registry, which writes the same state as JSON.
- Version texts with a sign before a number, which no manifest check accepts; precedence of prerelease parts, which the code compares as plain text and not as section 11 of SemVer 2.0.0.
- White space other than blank, tab and line breaks when event fields are trimmed, and the decoding of bytes to text.
- Receipt timestamps, unread counters and previews.
- Account and device deletion (users/service.go:176-260, devices/service.go:413), which remove devices, external contacts and tokens: no run of the conversation, prekey or token models contains them.
- The rate limits around phone verification and the issuing of access tokens.
- Database concurrency below the transaction: each transaction is one step, and the row locks of prekey claims serialise them.
