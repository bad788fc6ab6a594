# MasonicCore: a verified model

MasonicCore is a forum backend: a realtime hub over WebSockets, refresh-token
sessions, groups, threads and posts, private messages and notifications,
attachments kept in an object store, password hashes, and role administration.
This project models its stateful protocols in Dafny and proves what they
guarantee. `dafny verify dfyconfig.toml` checks everything.

Concurrent code is modelled as a state machine: every goroutine or service call
is a program counter, one SQL statement (or one remote request, or one statement
under a lock) is one atomic step, and `Exec` runs any schedule whose actions are
enabled when their turn comes. The theorems speak of every feasible schedule from
the initial state. Where a state machine needs memory of the past (what was
posted, who was issued which session, which keys were put), it carries history
fields that no step of the program reads. Code that changes objects or tables in
place is modelled by classes whose methods follow the statements of the source and
are proved equal to functions on values; runs of whole calls are then studied on
those functions. Every such method also states its outcome and the rows it leaves
without naming them. The session and forum calls are modelled both whole and statement
by statement, and an undisturbed run of the statements is proved to be the whole call.

| file | what it models |
|---|---|
| `Registry.dfy`, `Hub.dfy` | the hub's data and its critical sections as methods |
| `HubProtocol.dfy`, `HubSafety.dfy`, `HubHistory.dfy`, `HubTheorems.dfy`, `HubProgress.dfy`, `HubPresence.dfy` | the hub under concurrency: RWMutex, registration, delivery, presence, progress, the order of presence events |
| `Sessions.dfy` | session rows and the statements on them |
| `SessionProtocol.dfy`, `SessionTheorems.dfy` | concurrent Login, Refresh and Logout, statement by statement |
| `SessionStore.dfy`, `SessionRuns.dfy` | the sessions table and runs of uninterrupted calls with clean-up |
| `SessionRefinement.dfy` | the interleaved session calls, undisturbed, are the calls of the service |
| `Forum.dfy`, `ForumInvariants.dfy`, `ForumServices.dfy` | groups, threads, posts and attachments with their cascades, call by call |
| `StatsDrift.dfy`, `ActivityDrift.dfy` | the cached thread counter and activity time when replies and deletions interleave |
| `GroupRace.dfy` | deleting a group while threads are created in it |
| `DriftRefinement.dfy` | the interleaved forum calls of these three files, undisturbed, are the calls of the services |
| `Mailbox.dfy`, `Inbox.dfy` | private messages, notifications, unread counters, and the inbox query |
| `StorageKeys.dfy`, `Attachments.dfy`, `MediaService.dfy` | object keys and the two-store attachment protocol |
| `Roles.dfy` | transactional role replacement and the administrator's update |
| `Base64.dfy`, `Scanning.dfy`, `PasswordHash.dfy` | the encoded form of argon2id hashes |
| `Options.dfy`, `Text.dfy`, `Counting.dfy` | shared helpers |

## Assumptions

- Ids, uuids, salts and refresh tokens drawn at random are never drawn twice.
- A single SQL statement, with its cascades, is atomic, and so is a transaction.
- argon2 either panics, depending on the iterations, the parallelism and the key
  length, or is a function of its arguments whose result has the length asked for.
- `RWMutex` behaves as its documentation says: an announced writer excludes new
  readers, and unlocking lets the parked readers in.
- `Client.Close` runs once for each connection, after `ReadPump` has returned.
- Lower-casing works character by character, and never turns another character
  into a slash.

## Where the code and its comments differ

- `Hub.Notify` and `Hub.Broadcast` are described as non-blocking; both block while
  256 notifications are queued (`QueueFills`). `HubProgress` shows why this does not
  deadlock the hub before its context is cancelled, and `CancelledStops` what happens
  after.
- `broadcastPresence` runs after the lock is released, so presence events may be
  queued in another order than the flips they report: `StaleBroadcast` ends with the
  user online, nothing owed, and "offline" as the last event sent. The order is kept
  if and only if no "online" of a user is posted while an "offline" of that user is
  owed (`PresenceInOrder`); only an "offline" can be overdue (`OnlyOfflineIsOverdue`).
- `Verify` says malformed hashes merely do not match. That holds if and only if the
  number of fields or the scheme is wrong; six fields of the scheme of which one cannot
  be read are reported as an error (`MalformedIsMismatchExactly`,
  `OtherVersionIsError`). On fields that can be read `Verify` panics exactly where
  argon2 does, which refuses zero iterations, zero parallelism and an empty key.
  Characters behind the version or the parameters are ignored by the scanner
  (`ParsePrinted`).
- `Touch` is described as sliding expiration; it also revives a session that has
  already expired, unless `DeleteExpired` came first. A run can be told from the same
  run with clean-ups if and only if it contains such a Touch (`CleanupIsInvisible`).
- `Inbox` is described as newest first; the query orders by partner id
  (`NewestFirstExactly`, `OlderConversationListedFirst`). It also replaces the
  recipient by the reader, so a message the reader sent, and no other, appears as sent
  to themselves (`RecipientOverwritten`).
- `AdminService.UpdateUser` is not atomic: a status change stays when the roles are
  refused, and a role list with duplicates fails although every key exists
  (`BannedAllTheSame`).
- A deletion that recomputes the statistics between the INSERT and the bump of a
  reply makes `post_count` count the reply twice (`DriftHappens`); a reply that fails
  between the two is missed until the next recomputation (`CrashHappens`,
  `CrashUndercounts`).
- `BumpPost` writes the time of its own post: when the bumps of two replies cross, or a
  reply is deleted before its bump, `last_post_at` ends up too early or too late
  (`BumpsCross`, `BumpIsOrphaned`; `ActivityAtRest` says exactly when).
- `GroupService.Delete` is meant for groups without threads; a thread created between
  its count and its DELETE goes with the group (`DeletionTakesLatecomers`).

## Model

| member | source | states |
|---|---|---|
| HubObjects.Client.constructor | internal/ws/client.go:29-34 | a new client is open with an empty buffer |
| HubObjects.Client.Offer | internal/ws/hub.go:67-72 | the event is queued if fewer than 64 are, dropped otherwise |
| HubObjects.Hub.constructor | internal/ws/hub.go:31-37 | the empty hub satisfies the registry invariant |
| HubObjects.Hub.Register | internal/ws/hub.go:74-87 | the client is filed under its user; "online" is owed exactly if the user was absent; the invariant (online = keys, no empty inner set, every client filed under its own user) is kept |
| HubObjects.Hub.Unregister | internal/ws/hub.go:89-107 | the client is gone from the registry; "offline" is owed exactly if it was the user's last one |
| HubObjects.Hub.Close | internal/ws/client.go:40-43 | afterwards the channel is closed and no registered client is; "offline" is owed exactly if it was the user's last client |
| HubObjects.Hub.Post | internal/ws/hub.go:129-140 | the notification is appended, or the caller has to wait because 256 are queued |
| HubObjects.Hub.Deliver | internal/ws/hub.go:51-65 | the nested loops offer the event exactly once to each addressed client and to nobody else |
| HubObjects.Hub.OfferAll | internal/ws/hub.go:56-64 | the inner loop offers the event once to each connection of one user |
| HubObjects.Hub.Dispatch | internal/ws/hub.go:40-49 | the oldest notification leaves the queue and reaches its addressees |
| HubObjects.Hub.IsOnline | internal/ws/hub.go:110-115 | true exactly if some registered client belongs to the user |
| HubObjects.Hub.OnlineUsers | internal/ws/hub.go:118-126 | every present user is listed once |
| HubSafety.InvStep | internal/ws/hub.go:51-107 | lock, registry, online, channel and walk invariants survive every step of every goroutine |
| HubTheorems.ChannelSafety | internal/ws/hub.go:51-72 | no interleaving sends on or closes a closed channel; whoever a delivery has still to visit is registered and open |
| HubTheorems.RegistryIsFrozen | internal/ws/hub.go:51-65 | no step of anyone changes the registry while a delivery holds the read lock |
| HubTheorems.RegistryShape | internal/ws/hub.go:51-107 | between critical sections keys(clients) = online; inner sets are non-empty; a broadcast ranges over all live clients, a notify over exactly the user's |
| HubTheorems.PresenceAccounting | internal/ws/hub.go:74-107 | online events posted or owed minus offline events posted or owed is 1 if the user is online, else 0 |
| HubTheorems.FlipsAlternate | internal/ws/hub.go:79-104 | in lock order a user's presence flips alternate, starting with online, and the last one is the present state |
| HubTheorems.DispatchOrder | internal/ws/hub.go:40-49 | deliveries happen in the order in which notifications were queued |
| HubTheorems.DeliveredToRegistered | internal/ws/hub.go:51-65 | a delivery that begins is addressed to exactly the matching clients registered at that moment |
| HubTheorems.OrderedDelivery | internal/ws/client.go:79-89 | received followed by queued is a subsequence, in dispatch order, of the events addressed to the client; accepted + dropped (+ the one on its way) = addressed; at most 64 queued |
| HubTheorems.DropsOnlyWhenFull | internal/ws/hub.go:67-72 | an event is dropped exactly when a delivery visits a client with 64 events queued |
| HubTheorems.NothingDroppedNothingLost | internal/ws/hub.go:40-72 | a client that dropped nothing got exactly what it was addressed, in order |
| HubProgress.BlockedHoldsNoLock | internal/ws/hub.go:82-86 | a goroutine that may block on the full queue does not hold the lock |
| HubProgress.SomeoneCanHelp | internal/ws/hub.go:39-72 | while not cancelled and with work left, a step of the dispatcher or of whoever it waits for is enabled |
| HubProgress.HelpIsBounded | internal/ws/hub.go:39-72 | a schedule that leaves a notification undelivered contains no more such steps than the measure (queue position and clients left to visit) |
| HubProgress.NotificationIsDelivered | internal/ws/hub.go:39-72 | with at most b clients and b queries, 257 * (2b + 8) such steps deliver any queued notification |
| HubProgress.CancelledStops | internal/ws/hub.go:42-45 | after cancellation nothing is delivered; the queue only fills, and at 256 it is stuck |
| HubProgress.QueueFills | internal/ws/hub.go:128-136 | n handlers can send while nothing is dispatched, for every n up to 256, and then the next one blocks |
| HubProgress.SomeReaderCanLeave | internal/ws/hub.go:51-118 | while an announced register or unregister waits, an active reader can take a step towards unlocking, or the writer itself can go on |
| HubProgress.WriterGetsLock | internal/ws/hub.go:74-90 | an announced writer waits for exactly the remaining steps of the readers active then (walk left to visit, queries); nobody overtakes it |
| HubPresence.OnlyOfflineIsOverdue | internal/ws/hub.go:80-105 | at most one goroutine of a user owes "online", and then the user is online |
| HubPresence.PresenceInOrder | internal/ws/hub.go:79-107 | a user's presence events are queued in flip order (and alternate) if and only if no "online" was posted while an "offline" was owed |
| HubPresence.LastPostIsPresence | internal/ws/hub.go:79-107 | in that case, with nothing owed, the last event posted is the user's presence |
| HubPresence.StaleBroadcast | internal/ws/hub.go:82-103 | a concrete schedule after which the last event posted says offline of a user who is online, with nothing owed |
| SessionTheorems.ChainsAreLinear | internal/services/auth.go:139-222 | the sessions of one login form a chain, each one's parent its predecessor, only the last possibly unrevoked |
| SessionTheorems.ParentRevokedFirst | internal/services/auth.go:165-170 | once a session exists its parent is revoked or gone |
| SessionTheorems.ConsumedOnce | internal/store/session.go:71-82 | two Refresh calls that issued a successor of the same session are the same call |
| SessionTheorems.OneUnrevokedPerLogin | internal/services/auth.go:139-187 | at most one session per login is unrevoked |
| SessionTheorems.LiveAtMostLogins | internal/services/auth.go:105-222 | a user's unrevoked sessions never exceed that user's successful logins and those whose INSERT took effect while its answer was lost |
| SessionTheorems.LiveAtMostSuccessfulLogins | internal/services/auth.go:105-222 | where no answer is lost, they never exceed the successful logins |
| SessionTheorems.LostLoginLives | internal/services/auth.go:205-214 | a concrete lost answer: one live session and no successful login |
| SessionTheorems.RevokedForever | internal/store/session.go:50-106 | the token of a revoked or deleted session is never found again, with Touch and clean-up in the run |
| SessionTheorems.FailureEndsLogin | internal/services/auth.go:165-214 | a failing Refresh leaves the login without any session, for good, if and only if its Revoke took effect and its INSERT did not, lost answers included |
| SessionTheorems.SessionsHaveUsers | migrations/00002_user_sessions.sql:4 | in every interleaving, removal of users included, every session belongs to an existing user |
| SessionProtocol.InvStep | internal/services/auth.go:105-222 | row, hash, chain, call and tip invariants survive every statement of every call |
| SessionStore.Table.Create | internal/store/session.go:28-47 | inserts the row, or refuses a token hash already present |
| SessionStore.Table.GetByTokenHash | internal/store/session.go:50-68 | finds the unrevoked, unexpired session of the hash, or reports that there is none |
| SessionStore.Table.Revoke | internal/store/session.go:71-82 | one affected row exactly if the session was unrevoked; it keeps its first revocation time |
| SessionStore.Table.DeleteExpired | internal/store/session.go:85-92 | removes exactly the expired or revoked rows and counts them |
| SessionStore.Table.Touch | internal/store/session.go:95-106 | moves the expiry of an unrevoked session and of no other |
| SessionStore.AuthService.IssueTokens | internal/services/auth.go:189-222 | adds one session of that user, with the hash and the full lifetime, or fails on the foreign key and changes no row |
| SessionStore.AuthService.Login | internal/services/auth.go:105-135 | tokens exactly for an existing active user and a valid password, and then one new session of that user; a refused call changes no row |
| SessionStore.AuthService.Refresh | internal/services/auth.go:139-171 | tokens exactly for a live session of an active user; that session is then revoked now, and the only other change is one new session of the same user with the new hash and a full lifetime; an inactive user changes nothing |
| SessionStore.AuthService.Logout | internal/services/auth.go:174-187 | always succeeds; an accepted session of the token is revoked, and no other row changes |
| SessionRuns.CleanupIsInvisible | internal/store/session.go:84-106 | inserting DeleteExpired anywhere in a run changes no caller's result, if and only if no Touch of the run moves an unrevoked session that has already expired |
| SessionRuns.TouchTellsCleanup | internal/store/session.go:84-106 | a clean-up right before a Touch changes its result exactly if that Touch revives an expired session |
| SessionRuns.RevivalShows | internal/store/session.go:84-106 | for every run with such a Touch, a place for a clean-up that changes the results |
| SessionRuns.TouchSeesCleanup | internal/store/session.go:94-106 | a concrete run in which Touch revives an expired session unless the clean-up came first |
| SessionRuns.TokenIsUsedOnce | internal/services/auth.go:139-187 | a token exchanged or logged out is refused by every later Refresh, Touch and clean-up included |
| SessionRefinement.RefreshAlone | internal/services/auth.go:139-222 | the statements of an undisturbed Refresh answer and leave the tables as the whole call does, refusals included |
| SessionRefinement.LoginAlone | internal/services/auth.go:105-222 | so do those of a Login, with its checks of status and password |
| SessionRefinement.LogoutAlone | internal/services/auth.go:174-187 | and those of a Logout |
| SessionRefinement.StatementsAgree | internal/store/session.go:84-106 | clean-up, Touch and status changes are the same in both models |
| ForumServices.Database.BumpPost | internal/store/thread.go:156-161 | adds one to the counter and sets the time, of an existing thread only |
| ForumServices.Database.Aggregate | internal/store/thread.go:167-168 | computes the number and the maximum creation time of the thread's posts, null when none |
| ForumServices.Database.RecalcStats | internal/store/thread.go:164-173 | sets both statistics to what the posts table says |
| ForumServices.Database.CountByGroup | internal/store/thread.go:149-153 | counts the group's threads; zero exactly if there is none |
| ForumServices.Database.DeleteThreads | migrations/00003_core_crud.sql:35-38 | deleting threads takes exactly their posts and sets attachments' post to null |
| ForumServices.Database.DeleteGroupRow | migrations/00003_core_crud.sql:3-19 | deleting a group takes its threads and their posts, and takes itself as parent from its children and from no other group |
| ForumServices.Database.DeletePostRow | internal/store/post.go:96-105 | removes the post and detaches its attachments, or reports that there is none |
| ForumServices.Database.UpdateBody | internal/store/post.go:85-93 | replaces the body and records the editor |
| ForumServices.Database.DeleteGroup | internal/services/group.go:98-119 | refuses a group that has threads, deletes an empty one; its children lose their parent, no other group changes |
| ForumServices.Database.CreateThread | internal/store/thread.go:34-73 | refused exactly for a missing group, a blank or overlong title or body; otherwise one thread and its first post appear, the thread unpinned and unlocked with count 1 and the post's time |
| ForumServices.Database.GetThread | internal/services/thread.go:59-71 | changes nothing but the view counter |
| ForumServices.Database.EditThread | internal/services/thread.go:98-136 | which requests are refused and why; otherwise the title becomes the author's, a flag what a moderator asked for, everything not asked for stays, and no other row changes |
| ForumServices.Database.DeleteThread | internal/services/thread.go:139-157 | by author or moderator; takes the thread with exactly its posts, whose attachments are detached |
| ForumServices.Database.CreatePost | internal/services/post.go:36-59 | refused exactly for a missing or locked thread or a blank or overlong body; otherwise one post is added, and count and time of its thread follow |
| ForumServices.Database.EditPost | internal/services/post.go:62-84 | by the author only; replaces the body and records the editor, and nothing else |
| ForumServices.Database.DeletePost | internal/services/post.go:87-106 | by author or moderator; the post is gone, count and time of its thread are recomputed, attachments detached |
| ForumServices.Database.CreateGroup | internal/services/group.go:59-74 | refuses the nil parent, and a parent that does not exist; otherwise adds the group |
| ForumServices.Database.UpdateGroup | internal/services/group.go:77-97 | the same for an existing group |
| ForumServices.Database.Attach | internal/store/attachment.go:26-33 | one attachment of the caller, on an existing post or on none |
| ForumServices.Database.Detach | internal/services/media.go:94-109 | by the owner or a moderator; takes that attachment only |
| ForumInvariants.StatsAreExact | internal/services/post.go:36-106 | after every run of uninterrupted calls post_count is the number of posts and last_post_at their latest creation time |
| ForumInvariants.ReferencesHold | migrations/00003_core_crud.sql:8-40 | after every run all references hold (post's thread, thread's group, group's parent, attachment's post), and every edit was the author's |
| ForumInvariants.GroupDeletionTakesNothingElse | internal/services/group.go:98-119 | an uninterrupted deletion of a group removes no thread, post or attachment |
| GroupRace.DeletionTakesLatecomers | internal/services/group.go:105-112 | interleaved, a deletion that counted no thread takes exactly the threads created in the group since its count and still there, so nothing if and only if there are none |
| GroupRace.LatecomerIsTaken | internal/services/group.go:105-112 | a concrete schedule in which a thread goes with its group |
| DriftRefinement.DeletionFiles | internal/services/group.go:98-119 | in that model an undisturbed deletion of an empty group is the service's |
| DriftRefinement.DeletionRefused | internal/services/group.go:105-111 | an undisturbed deletion of a group with threads stops at the count and changes nothing |
| DriftRefinement.OpeningFiles | internal/services/thread.go:74-95 | an undisturbed creation of a thread is the service's |
| DriftRefinement.DropFiles | internal/services/thread.go:139-157 | and so is the deletion of a thread |
| ForumInvariants.ThreadDeletionTakesItsPosts | internal/services/thread.go:139-157 | deleting a thread removes exactly its own posts; attachments stay, detached |
| ForumInvariants.FlagsNeedModerator | internal/services/thread.go:98-136 | pinned or locked differ between two states only if a moderator updated that thread in between |
| ForumInvariants.LockedOnlyShrinks | internal/services/post.go:36-59 | until a moderator unlocks it a locked thread stays locked and gains no post |
| Forum.LatestIsUnique | internal/store/thread.go:168-168 | max(created_at) is determined by the posts, and null exactly when there are none |
| StatsDrift.DriftEquation | internal/services/post.go:51-105 | in every interleaving, crashes included: post_count + pending bumps = posts + deletions since the last recomputation + bumps pending at it |
| StatsDrift.DriftAtRest | internal/services/post.go:51-105 | at rest the counter never undercounts, and is exact if and only if no bump was pending at the last recomputation |
| StatsDrift.DriftHappens | internal/store/thread.go:156-173 | a concrete schedule that ends at rest with a counter of 2 for one post |
| StatsDrift.CrashUndercounts | internal/services/post.go:51-57 | with only failed replies left over, the counter misses exactly these, save for bumps pending at the last recomputation, and undercounts if and only if those were fewer; the bump of a failed reply never comes |
| StatsDrift.CrashHappens | internal/services/post.go:51-57 | a concrete schedule that ends with a counter of 1 for two posts |
| StatsDrift.RecalcRepairs | internal/store/thread.go:164-173 | a recomputation makes the counter exact, failed replies included |
| DriftRefinement.ReplyCounts | internal/services/post.go:36-59 | the statements of an undisturbed reply leave counters and posts as the service's call does |
| DriftRefinement.DeletionCounts | internal/services/post.go:87-106 | so do those of a deletion |
| DriftRefinement.OpeningCounts | internal/store/thread.go:34-73 | and the transaction that opens a thread |
| DriftRefinement.DropCounts | internal/services/thread.go:139-157 | and the deletion of a thread with its posts |
| ActivityDrift.ActivityAtRest | internal/services/post.go:51-105 | in every interleaving, at rest last_post_at is the time of the thread's newest post if and only if it was last recomputed, or bumped on time; after an overtaken bump it is too early, after the bump of a deleted post too late |
| ActivityDrift.BumpIsOnTime | internal/store/thread.go:156-161 | a bump writes its post's time, and is on time exactly if a post of that time is there and none newer; that of a post still there is never orphaned |
| ActivityDrift.BumpsCross | internal/services/post.go:51-57 | a concrete schedule that leaves the time of an older post |
| ActivityDrift.BumpIsOrphaned | internal/services/post.go:51-105 | a concrete schedule that leaves the time of a deleted post |
| DriftRefinement.ReplyTimes | internal/services/post.go:36-59 | an undisturbed reply leaves activity times and posts as the service's call does |
| DriftRefinement.DeletionTimes | internal/services/post.go:87-106 | so does a deletion, the two maxima being the same |
| DriftRefinement.OpeningTimes | internal/store/thread.go:34-73 | and the opening of a thread |
| DriftRefinement.DropTimes | internal/services/thread.go:139-157 | and its deletion |
| Mailbox.Tables.Send | internal/services/message.go:33-48 | refuses oneself, blank or overlong bodies and unknown users; otherwise adds one unread message with sender, recipient, trimmed body and time |
| Mailbox.Tables.OnPrivateMessage | internal/services/message.go:87-102 | adds one unread notification for the recipient |
| Mailbox.Tables.MarkRead | internal/store/message.go:118-129 | marks the message if it is the caller's and unread, and reports whether it did |
| Mailbox.Tables.MarkNote | internal/store/message.go:213-224 | the same for one notification |
| Mailbox.Tables.MarkAllNotes | internal/store/message.go:227-232 | marks exactly the caller's unread notifications |
| Mailbox.UnreadConservation | internal/store/message.go:118-140 | over every run and for every user: unread now + marked by the user = unread before + sent to the user |
| Mailbox.MarkedOnce | internal/store/message.go:118-129 | of two MarkRead calls on one message at most one succeeds |
| Mailbox.SweepIsOwn | internal/store/message.go:227-243 | read-all leaves the caller with none unread and everyone else's count alone |
| Mailbox.NoteConservation | internal/store/message.go:213-243 | the same conservation law for notifications, sweeps included |
| Mailbox.UnreadIs | internal/store/message.go:131-140 | the unread count ranges over the messages received and without a read time |
| Text.TrimSpaceIs | internal/services/message.go:37 | the stored text is a contiguous part of what was sent, with no space at either end and only spaces cut off |
| Text.TrimmedIsUnique | internal/services/message.go:37 | no other text is |
| Inbox.ReferencesHold | internal/services/message.go:33-48 | sender and recipient of every message exist and differ, after every run |
| Inbox.SomeOrder | internal/store/message.go:93-93 | every set of rows can be sorted as the query asks |
| Inbox.LatestPerPartner | internal/store/message.go:71-94 | sort plus DISTINCT ON is the reference: partners in ascending order, each once, with a newest message, as many as count(DISTINCT) says |
| Inbox.CountedArePartners | internal/store/message.go:71-77 | the computed partner column yields exactly those the reader wrote to or heard from |
| Inbox.PageIs | internal/store/message.go:94 | LIMIT and OFFSET cut out rows offset to offset + limit, as far as they exist |
| Inbox.OffsetIsProduct | internal/store/message.go:94-94 | page k of a listing starts at k * limit |
| Inbox.PagesPartition | internal/store/message.go:94-94 | on an unchanged table the LIMIT/OFFSET pages together list every partner exactly once, whichever way each query broke ties |
| Inbox.ReadInbox | internal/store/message.go:71-114 | item k is a newest message exchanged with partner number offset + k in ascending order; there are as many as LIMIT and OFFSET leave, and the total is the number of partners |
| Inbox.RecipientOverwritten | internal/store/message.go:103-108 | the recipient shown is the message's own if and only if the reader did not send it |
| Inbox.NewestFirstExactly | internal/services/message.go:55-58 | the inbox is newest first if and only if, for partners p before q by id, p has a message at least as recent as all of q's |
| Inbox.OlderConversationListedFirst | internal/store/message.go:70-94 | a concrete inbox that is not newest first |
| StorageKeys.Ext | internal/storage/keys.go:19-21 | the extension is the suffix from the last dot of the last path element, empty if there is none, and has no slash |
| StorageKeys.SanitizeExt | internal/storage/keys.go:19-26 | the lowered extension, cut to 8 bytes, and without a slash |
| StorageKeys.KeysAre | internal/storage/keys.go:28-35 | the layout of the two kinds of keys |
| StorageKeys.KeyHoldsUuid | internal/storage/keys.go:33-35 | whatever the extension, the uuid can be read back from the key |
| StorageKeys.AttachmentKeyInjective | internal/storage/keys.go:33-35 | equal attachment keys mean equal uuid and extension |
| StorageKeys.AvatarKeyInjective | internal/storage/keys.go:28-30 | equal avatar keys mean equal user, uuid and extension |
| StorageKeys.PrefixesDisjoint | internal/storage/keys.go:12-16 | no attachment key is an avatar key |
| StorageKeys.KeyStaysInDirectory | internal/storage/keys.go:19-35 | no file name moves its object out of the attachments directory |
| Attachments.InvStep | internal/services/media.go:59-109 | the two-store invariants survive every step and every failure |
| Attachments.KeysAreDistinct | migrations/00004_attachments.sql:10-10 | rows have pairwise distinct storage keys |
| Attachments.DanglingRowWasBeingDeleted | internal/services/media.go:94-109 | a row lacks its object if and only if a deletion has passed its Remove step |
| Attachments.OrphansComeFromUploads | internal/services/media.go:78-91 | an attachment object without a row belongs to an upload still to insert it, or failed |
| Attachments.AvatarsStay | internal/services/media.go:51-56 | no upload or deletion of attachments removes an avatar |
| Attachments.DeletedForever | internal/services/media.go:105-108 | once a deletion has succeeded, row and object stay gone |
| Attachments.RetryRemovesBoth | internal/services/media.go:94-109 | a deletion run to completion removes row and object, whatever earlier attempts left |
| Attachments.UploadAlone | internal/services/media.go:59-91 | an undisturbed upload is refused for its size or a missing post, and otherwise leaves one object and one row of the uploader under the same key |
| Attachments.OnlyOwnersDelete | internal/services/media.go:94-104 | a deletion gets past its check exactly for owner or moderator, and then goes for that row's object |
| Attachments.OnlyCheckedDeletionsRemove | internal/services/media.go:102-108 | no other step of any call removes an object or a row |
| Attachments.AttachedToPosts | migrations/00004_attachments.sql:6 | in every interleaving each attachment belongs to an existing post or to none |
| Attachments.DetachingIs | migrations/00004_attachments.sql:6 | deleting a post detaches its own attachments and keeps their objects |
| MediaService.Media.UploadAttachment | internal/services/media.go:59-91 | each outcome under its exact condition, and the rows and objects it leaves; a failure never leaves a row without an object |
| MediaService.Media.DeleteAttachment | internal/services/media.go:94-109 | owner or moderator only, each outcome under its exact condition; on failure the row stays, on success both are gone |
| Roles.RowCountDecides | internal/store/user.go:185-196 | rows affected equal the number of keys exactly if the keys are pairwise distinct and all exist |
| Roles.InsertedKeys | internal/store/user.go:182-192 | after clearing and inserting, the user's role keys are the requested set and nobody else's rows changed |
| Roles.UserStore.InsertRoles | internal/store/user.go:186-192 | inserts the selected roles and counts them, or fails on a missing user or on a pair already present |
| Roles.UserStore.UpdateRoles | internal/store/user.go:175-198 | commits exactly for an empty list, or an existing user and distinct existing keys; then the user has exactly those; otherwise nothing changes |
| Roles.UserStore.UpdateStatus | internal/store/user.go:201-207 | sets the status of an existing user |
| Roles.AdminService.UpdateUser | internal/services/admin.go:41-77 | succeeds exactly on an existing user, an allowed status and an acceptable role list; the status change survives a refusal of the roles |
| Roles.BannedAllTheSame | internal/services/admin.go:42-66 | a concrete refused request whose status change stays |
| Roles.AtMostThree | internal/services/admin.go:50-66 | a role list that is accepted names at most three roles |
| Roles.AcceptableIs | internal/services/admin.go:16-19 | which role lists and which statuses are acceptable |
| Scanning.PrintRoundTrip | internal/auth/password.go:54-59 | the digits printed for a number denote it |
| Scanning.ScanPrinted | internal/auth/password.go:72-84 | scanning a printed number that fits gives it back and stops behind it |
| Scanning.ScansExactly | internal/auth/password.go:79-84 | an unsigned operand is read if and only if the text begins with white space and a decimal number in range |
| Scanning.ScansIntExactly | internal/auth/password.go:72-75 | the same for a positive int, a plus sign allowed |
| Scanning.FieldsExactly | internal/auth/password.go:66-69 | the fields are the one way to cut a text at every '$' and nowhere else |
| Base64.DecodeEncode | internal/auth/password.go:86-90 | decoding unpadded base64 undoes encoding, and no '$' is written |
| Base64.EncodedLength | internal/auth/password.go:57-58 | n bytes take ceil(4n/3) letters: there is no padding |
| Base64.AlphabetIs | internal/auth/password.go:57-58 | the alphabet is Table 1 of RFC 4648, letter by letter |
| Base64.GroupIs | internal/auth/password.go:57-58 | the letters of a group carry the bits of its bytes |
| Base64.DecodesExactly | internal/auth/password.go:86-93 | a text decodes if and only if all its characters but line breaks are letters of the alphabet, their number not 1 modulo 4 |
| Base64.EncodeDecode | internal/auth/password.go:86-93 | encoding what was decoded gives the same letters back up to unused low bits |
| PasswordHash.PrintedFields | internal/auth/password.go:54-67 | the encoded hash splits into exactly six fields |
| PasswordHash.ParsePrinted | internal/auth/password.go:54-93 | parsing undoes printing for all parameters, salts and keys, and ignores what follows the numbers |
| PasswordHash.VerifyHash | internal/auth/password.go:46-100 | there is a hash unless argon2 panics on the parameters; the password verifies against it under every salt and parameter set, another one exactly if it derives the same key |
| PasswordHash.MalformedIsMismatchExactly | internal/auth/password.go:64-93 | a malformed hash is a mismatch if and only if the number of fields or the scheme is wrong; Verify errs exactly on six fields of the scheme of which version, parameters or base64 cannot be read, described by their characters, and panics exactly on readable ones on which argon2 does |
| PasswordHash.VersionScans | internal/auth/password.go:72-77 | the version field passes if and only if it begins with v= and a decimal 19 |
| PasswordHash.CostsScan | internal/auth/password.go:79-84 | the parameters read are exactly the three numbers in the field, each in range |
| PasswordHash.VerdictIs | internal/auth/password.go:64-100 | on readable fields the verdict compares the stored key with argon2 of the password, stored salt and costs |
| PasswordHash.HashText | internal/auth/password.go:46-60 | the six fields of every hash, the key derived from password, salt and parameters |
| PasswordHash.OtherVersionIsError | internal/auth/password.go:72-77 | a well-formed hash of another version is such an error |
| PasswordHash.PrintIsInjective | internal/auth/password.go:54-59 | equal encodings have equal costs, salts and keys |
| PasswordHash.FreshSaltFreshHash | internal/auth/password.go:46-60 | different salts give different encodings |
| PasswordHash.DefaultPrefix | internal/auth/password.go:27-60 | every hash made with the default parameters begins with the scheme, v=19 and m=65536,t=3,p=2 |

## Left out

- HTTP handlers, routing, JSON, cookies, configuration, version and health endpoints, the install wizard: straight-line plumbing.
- WebSocket frames, pings and deadlines: WritePump either takes the head of the queue or stops; ReadPump only decides when Close runs.
- Request handlers blocked in Notify or Broadcast: they are steps enabled while the queue has room, not goroutines of their own, since they hold nothing.
- The order in which `deliver` visits clients: any order is allowed, interleaved over users.
- JWT signing, SHA-256 of refresh tokens, random generation: a token is identified with its hash.
- argon2: uninterpreted, and so are the arguments on which it panics (zero iterations, zero parallelism, an empty key); the error of `rand.Read` is not modelled.
- PostgreSQL isolation between statements, deadlocks and connection errors inside a statement.
- Text and network columns that no decision depends on: user agent, IP, descriptions, display names, updated_at.
- Uniqueness and shape of group names and slugs, and other single-field validators.
- `GroupStore.Update` does not translate a unique violation, which is not visible here.
- Overflow of the 32-bit counters `post_count` and `views`.
- The fields written by `ThreadService.Update` when calls interleave: only uninterrupted calls are studied.
- Failing calls in `ActivityDrift`: a call that fails just never goes on, so its thread does not come to rest.
- Paging of posts, conversations and notifications by creation time: their order has no tie-breaker.
- Removal of users in `Mailbox`, `Attachments` and `Forum`: no code path deletes one; `SessionProtocol` has it.
- Avatars: only that their objects stay; `UpdateAvatar` and the file names shown to users are left out.
- HubProgress.NotificationIsDelivered: bounds the steps of the dispatcher and of those it waits for; that the scheduler grants them is not modelled.
- HubObjects.Client.constructor: makes the client only; `NewClient` also registers it, which is `Hub.Register`.
- SessionStore.Table.Create: does not check the foreign key on the user, which `IssueTokens` does before it.
- SessionStore.AuthService.Login: takes the user found by username or email as given, since both lookups only select a row.
- ForumServices.Database.CreateThread: the author's foreign key is not modelled, because no code path removes a user.
- ForumServices.Database.CreatePost: the author's foreign key is not modelled, for the same reason.
- Mailbox.Tables.OnPrivateMessage: the payload is reduced to the message id; type, sender and preview decide nothing.
- MediaService.Media.UploadAttachment: a failing step has no effect here; steps that fail after taking effect are in `Attachments`.
- MediaService.Media.DeleteAttachment: likewise.
