# Account routing of the relay, modelled and proved

The relay groups the websockets of one account: up to ten bridges, keyed by
bridge id, and up to five phones, keyed by a 16-bit connId that wraps around.
A phone talks to at most one bridge, its *effective target*: the bridge it is
pinned to, or else the newest connected one. Every join, leave and same-id
takeover of a bridge moves targets, is reported as a list of changes, and is
told to phones and bridges in control messages from which they build their own
picture. This project models that state machine and proves what it keeps.

## How the model is built

- **Values and objects.** `Connection` is a value whose `handle` stands for the
  pointer identity of the relay's connection object. The group, the registry
  and the limiter are classes that update their maps and counters in place
  (`AccountGroups`, `GroupManagers`, `RateLimits`). Their loops visit a map in
  an arbitrary order. Each method is proved against a function or a predicate
  of the old state (`Groups`, `Routing`, `ConnIds`, `RateLimits`).
- **Every interleaving.** `Relay` is a step system. Any number of handlers run
  at once, each in a phase (admitted, holding a group, joined, left, cleaning
  up, exiting, released), over any number of group instances, registered or
  stale. A step is one critical section. The group and limiter steps are the
  same functions the classes are proved against. `RemoveGroupIfEmpty` is two
  steps, because it drops the group lock between the emptiness check and the
  delete; the registry lock is held across both. `HandlerSteps` says how a
  handler moves through its phases. `RelayRuns`, `Displacement`, `Anchors`,
  `LimiterRuns`, `JoinHistory` and `Admissions` prove what holds in every
  reachable state, over event sequences of any length; `Endings` proves how every
  run ends once connections stop arriving. `Witnesses` gives concrete runs for
  what fails.
- **Serial runs.** Control messages are written after the group lock is
  released, so what peers *believe* is stated for runs in which each join or
  leave finishes, announcements and cleanup included, before the next begins
  (`SerialRuns`). A write appends to a log; pictures are folds over the log
  (`Announcements`, `Views`, `GroupViews`, `Notices`, `SerialNotices`).
  `SerialWitness` shows that these runs are runs of `Relay`, and that joins and
  leaves can always happen.
- **Report mailbox.** `Mailbox` is a small-step system of the producer, the
  sender goroutine and cancellation.

## What the proofs show to be false of the code

- *A join moves phones only to the joining bridge.* Not always. `ConnectedAt` is
  read before the group lock is taken (handler.go:213-214), so a same-id
  takeover can carry an older timestamp than the connection it replaces. If the
  replaced one was the default and a third bridge is newer than the
  replacement, the unpinned phones move to the third bridge.
  `Routing.JoinReportIsMinimal` says exactly when: the report names another
  bridge iff the takeover is stale in this sense and the group has an unpinned
  phone. `Witnesses.StaleTakeoverHappens` gives a run of the relay.
- *A phone that names no bridge talks to the most recently connected one.* The
  same race: "most recently" means latest timestamp. The default is the last
  joined bridge iff no other connected one carries a later timestamp, or the
  same one and a larger id, which is so whenever the bridges joined in timestamp order
  (`JoinHistory.DefaultIsLastJoined`).
- *A group holds every live connection of one account* (comment at
  account_group.go:23). Not always. A handler that fetched its group can join it
  after a cleanup has unregistered it; the account's next connection gets a
  fresh group and the two cannot see each other (`Witnesses.StaleJoinHappens`).
  `Anchors.StaleExactlyIfStaleAtJoin` says exactly when. If, at a member's join,
  the fetched group was still registered and no cleanup that had seen it empty
  was pending, the group stays registered as long as the member is in it. If
  not, then while the member is in it the group is unregistered whenever the
  registry is unlocked; only until that pending cleanup deletes the entry can it
  still be found. In serial runs it never happens.

## Model

| member | source | states |
|---|---|---|
| AccountGroups.AccountGroup.constructor | internal/relay/account_group.go:48-55 | a new group is empty, valid and starts its connIds at 1 |
| AccountGroups.AccountGroup.AssignConnID | internal/relay/account_group.go:57-65 | hands out the counter and advances it by one, from 65535 to 1 |
| AccountGroups.AccountGroup.DefaultBridge | internal/relay/account_group.go:70-79 | one pass in any order finds the unique maximum by (time, id), none iff there is no bridge |
| AccountGroups.AccountGroup.TargetOf | internal/relay/account_group.go:81-86 | the pinned bridge if it is there, else the default |
| AccountGroups.AccountGroup.ChangeBridges | internal/relay/account_group.go:90-112 | for any new bridge map and any iteration orders the report has one exact entry per moved phone and no other |
| AccountGroups.AccountGroup.DescribeMove | internal/relay/account_group.go:97-110 | no change iff the target is the same; otherwise previous is set iff the old target is still current, and the old id is named even when it is gone |
| AccountGroups.AccountGroup.AddBridge | internal/relay/account_group.go:118-127 | accepted iff the id is connected or at most nine bridges are; returns what it displaced and the exact report; a rejection changes nothing |
| AccountGroups.AccountGroup.RemoveBridge | internal/relay/account_group.go:132-139 | removes and reports iff the connection is current, else changes nothing |
| AccountGroups.AccountGroup.IsCurrentBridge | internal/relay/account_group.go:143-147 | current iff registered, as itself, under its own id |
| AccountGroups.AccountGroup.PhonesTargeting | internal/relay/account_group.go:161-174 | lists each phone whose target is the current bridge once, nobody for a bridge that is not current |
| AccountGroups.AccountGroup.PhoneTargeting | internal/relay/account_group.go:178-186 | the phone with that connId iff its target is the current bridge |
| AccountGroups.AccountGroup.AllPhones | internal/relay/account_group.go:189-197 | lists every registered phone once |
| AccountGroups.AccountGroup.TakeFreeConnID | internal/relay/account_group.go:207-212 | stops within one more than the ids in use, from any counter value, at the first free id of the circle |
| AccountGroups.AccountGroup.AddPhone | internal/relay/account_group.go:201-215 | accepted iff at most four phones are registered; registers under a free non-zero connId and returns the target; a rejection changes nothing |
| AccountGroups.AccountGroup.RemovePhone | internal/relay/account_group.go:218-223 | deletes the entry of the phone's connId and returns the target computed afterwards |
| AccountGroups.AccountGroup.BridgeForPhone | internal/relay/account_group.go:227-234 | the target of a registered phone, none for any other |
| AccountGroups.AccountGroup.IsEmpty | internal/relay/account_group.go:237-241 | empty iff neither bridges nor phones |
| ConnIds.CounterIsCircle | internal/relay/account_group.go:57-65 | the wrapping increment visits all 65535 ids, never 0, before it repeats one |
| ConnIds.Pigeonhole | internal/relay/account_group.go:207-212 | k misses in a row need k ids in use |
| ConnIds.FreeIDIs | internal/relay/account_group.go:207-212 | where a search stops is the first free id, after at most as many misses as ids in use |
| Connections.NewerTotal | internal/relay/account_group.go:73-74 | of two bridges with different ids exactly one is newer |
| Connections.NewerTransitive | internal/relay/account_group.go:73-74 | being newer is transitive |
| Connections.PrecedesMeans | internal/relay/account_group.go:74 | the recursive id order is the comparison at the first position where the ids differ |
| Routing.NewestUnique | internal/relay/account_group.go:67-79 | the newest bridge is unique, so the choice never flips between calls |
| Routing.DefaultMeans | internal/relay/account_group.go:67-79 | the default is the bridge such that every other has an earlier time, or the same time and an id that ends or has the smaller character where the two part |
| Routing.ReportsAgree | internal/relay/account_group.go:88-112 | exact reports of one mutation are permutations of each other |
| Routing.JoinReportIsMinimal | internal/relay/account_group.go:118-127 | every entry of a join's report names the joining bridge, unless the takeover is stale and some phone is unpinned, and then some entry does not |
| Routing.StaleMovesUnpinned | internal/relay/account_group.go:118-127 | a stale takeover moves unpinned phones to a bridge of another id, and pinned phones at most to the joining bridge |
| Routing.JoinIsMinimal | internal/relay/account_group.go:118-127 | over all possible pins, every moved one is moved to the joining bridge iff the join is no stale takeover, and phones pinned to its id always move |
| Routing.FreshJoinIsNotStale | internal/relay/account_group.go:118-127 | a fresh id, or a replacement not below what it replaces, is never a stale takeover |
| Routing.LeaveIsMinimal | internal/relay/account_group.go:132-139 | exactly the leaving bridge's phones move, pinned ones to none, unpinned ones to the newest of the rest |
| Routing.JoinThenLeave | internal/relay/account_group.go:118-139 | a fresh join and its leave restore all targets, and their reports undo each other entry by entry |
| Groups.JoinBridgeKeepsValid | internal/relay/account_group.go:118-127 | a join keeps keys and caps; a same-id join, even at the cap, keeps the bridge count |
| Groups.LeaveBridgeKeepsValid | internal/relay/account_group.go:132-139 | removing a bridge keeps keys and caps |
| Groups.JoinPhoneKeepsValid | internal/relay/account_group.go:201-215 | a phone's join keeps keys and caps, adds exactly one phone and registers it |
| Groups.LeavePhoneKeepsValid | internal/relay/account_group.go:218-223 | removing a phone keeps keys and caps |
| Groups.RoutingPartitions | internal/relay/account_group.go:161-174 | no phone is reached by two bridges, only target-less phones by none, and a bridge reaches a phone iff it is the phone's target |
| Groups.PhoneTalksTo | internal/relay/account_group.go:81-86 | a phone has a target iff it is registered as itself and the bridge it names is connected, or any bridge if it names none; the target is that bridge, or the default |
| Groups.BroadcastIsAllUnicasts | internal/relay/account_group.go:176-186 | a broadcast reaches exactly what all unicasts reach together, and connId 0 names nobody |
| Groups.NotCurrentReachesNobody | internal/relay/account_group.go:149-152 | a bridge that is not current reaches no phone and is no phone's target |
| JoinHistory.RunMatches | internal/relay/account_group.go:118-139 | in every interleaving the bridges of an instance are those that queue up by its accepted joins and drop out by leaves and takeovers |
| JoinHistory.DefaultIsLastJoined | internal/relay/account_group.go:67-79 | in every interleaving the default is the last joined bridge still connected iff no other connected one is newer; with joins in timestamp order, leaves and takeovers included, that always holds, and a phone that names no bridge talks to it |
| Frames.FramingRoundTrip | internal/relay/handler.go:452-454 | the connId prefix decodes to what was encoded, and every message of two bytes or more is a frame |
| Frames.ReplyRoundTrip | internal/relay/handler.go:447-455 | a phone's payload, sent back unchanged by its bridge in the same routing state, reaches exactly that phone with the original payload and is never a broadcast |
| Frames.BridgeWritesExactly | internal/relay/handler.go:365-388 | a frame is written to exactly the registered phones that talk to its bridge and have the connId its first two bytes spell, high byte first, or to all that talk to it if they spell zero |
| Frames.PhoneWritesExactly | internal/relay/handler.go:447-455 | a phone's frame is written iff the phone is registered and has a target, to that target, as its connId, high byte first, and the payload |
| Frames.BridgeWritesStayOnTarget | internal/relay/handler.go:365-388 | a bridge frame is written only to registered phones that talk to that current bridge |
| Frames.ForwardFromBridge | internal/relay/handler.go:365-388 | writes the payload once to each registered phone that talks to the bridge and has the connId of the frame, to all that talk to it if the connId is zero, and to nobody else |
| Frames.ForwardFromPhone | internal/relay/handler.go:447-455 | writes connId and payload to the target of a registered phone, else nothing |
| Policies.Normalize | internal/relay/handler.go:560-567 | "normal" and "suppress" stay, everything else becomes "conservative" |
| Policies.StickyFollowsStream | internal/relay/handler.go:350-357 | one more message moves the last policy other than suppress by one update |
| Policies.LastAwakeMeans | internal/relay/handler.go:350-357 | the sticky policy is "suppress" iff no other string was sent, otherwise the last other string sent, as "normal" or else "conservative" |
| Policies.TrackPolicy | internal/relay/handler.go:345-364 | the read loop ends with the latest policy and with the last one other than suppress, in terms of the strings as sent, for every stream |
| Mailbox.StepKeepsInv | internal/relay/handler.go:525-558 | each step of producer, sender or cancellation keeps the pipeline ordered and ending in the latest report |
| Mailbox.MailboxIsSafe | internal/relay/handler.go:522-558 | in every interleaving the blocking send finds room, calls start in submission order, and the latest report is not discarded unless the context was cancelled |
| Mailbox.LatestGetsSent | internal/relay/handler.go:530-545 | once submissions pause, every sequence of sender steps ends after the same number of them, at most five, with nothing pending and the latest report sent last |
| Mailbox.NoCallAfterCancel | internal/relay/handler.go:530-538 | from cancellation on, whatever is pending or submitted, no call starts |
| Mailbox.CancelledSenderStops | internal/relay/handler.go:530-538 | a cancelled sender takes at most three more steps, whatever the producer does, and is stuck only when it has stopped |
| RateLimits.ReleaseUndoesAdmit | internal/relay/ratelimit.go:33-59 | a release undoes an admission and changes only its own address |
| RateLimits.RateLimiter.AllowConnection | internal/relay/ratelimit.go:33-44 | admits and counts iff below the limit, else counts a rejection |
| RateLimits.RateLimiter.ReleaseConnection | internal/relay/ratelimit.go:46-59 | takes one off the address, dropping it at zero |
| RateLimits.SumTakeOut | internal/relay/ratelimit.go:66-72 | the sum of the counts does not depend on the order of summation |
| RateLimits.RateLimiter.Stats | internal/relay/ratelimit.go:61-74 | one pass in any order gives the sum, the number and the maximum of the counts |
| LimiterRuns.LimiterConserves | internal/relay/handler.go:104-115 | in every interleaving each address counts exactly its admitted, unreleased handlers, never above the limit, and the counts sum to all such handlers |
| LimiterRuns.AdmittedBelowLimit | internal/relay/ratelimit.go:33-44 | in every interleaving a connection is admitted iff fewer than the limit of its address are unreleased, else turned away, and the turned away are counted |
| LimiterRuns.ReleasedIsFinal | internal/relay/handler.go:109-115 | in every run a handler that has released stays as it is and does not release again |
| LimiterRuns.ReleasesExactlyOnce | internal/relay/handler.go:104-115 | in every interleaving the number of releases of a handler is one if it is at its end, else zero |
| Endings.EveryWayEnds | internal/relay/handler.go:104-152 | from every reachable state, on every path without arrivals: at most seven steps a handler, handlers are stuck iff all have released iff no address is counted, and then each has released exactly once, no group is registered or occupied and no lock is held |
| Endings.EveryRunCanEnd | internal/relay/handler.go:104-152 | every reachable state can be run on to such an end |
| Endings.CanGo | internal/relay/group_manager.go:35-44 | a handler that has not released can take its next step unless another one is between its emptiness check and its delete, and that one can always go on |
| GroupManagers.GroupManager.GetOrCreateGroup | internal/relay/group_manager.go:16-27 | returns the registered group or registers a fresh empty one |
| GroupManagers.GroupManager.RemoveGroupIfEmpty | internal/relay/group_manager.go:35-44 | unregisters iff this very instance is registered and empty |
| GroupManagers.GroupManager.HasLiveBridgeWithID | internal/relay/group_manager.go:57-67 | true iff the registered group has a bridge with that id |
| GroupManagers.GroupManager.Count | internal/relay/group_manager.go:46-50 | the number of registered groups |
| Relay.StepKeepsMembership | internal/relay/handler.go:144-151 | every step keeps each group valid, its members owned by handlers of its account, and registered phones under their own entries |
| RelayRuns.RunKeepsMembership | internal/relay/handler.go:144-151 | every run, from any sound state, keeps memberships right and leaks no group |
| RelayRuns.NoLeakedGroups | internal/relay/group_manager.go:16-44 | in every interleaving a registered group has a member or a handler that will join or clean it, so with no such handler the registry is empty |
| RelayRuns.AccountsAreIsolated | internal/relay/handler.go:130-151 | in every interleaving every group keeps its caps, every connection in it is one of its account, and a registered group sits under its own user |
| RelayRuns.RemovePhoneDeletesItself | internal/relay/handler.go:416-422 | in every interleaving, however often connIds wrapped, a phone's teardown deletes its own entry and no other |
| Admissions.BridgeAdmitted | internal/relay/account_group.go:114-127 | in every interleaving a bridge that tries to join gets in iff its id is connected in its instance or at most nine of its handlers are current bridges there; else nothing changes but its way out |
| Admissions.PhoneAdmitted | internal/relay/account_group.go:201-215 | in every interleaving a phone that tries to join gets in iff at most four phone handlers are in its instance, under an id no other phone there has |
| Admissions.ConnIDsInOrder | internal/relay/account_group.go:57-65 | in every interleaving the phones of an instance get 1, 2, 3, ... up to 65535 in join order, whoever left meanwhile, and at any time an id is not given again within the next 13106 joins |
| RelayRuns.RetiredStaysRetired | internal/relay/group_manager.go:29-34 | an instance that is not registered never is again |
| RelayRuns.CleanupRemovesOwnInstance | internal/relay/group_manager.go:35-44 | only a cleanup by a handler of that very instance takes a registry entry away |
| RelayRuns.GuardsHold | internal/relay/handler.go:205-220 | in reachable states the phase of a handler alone decides its next step |
| Displacement.DisplacementIsPermanent | internal/relay/account_group.go:129-147 | in every interleaving a connection that is no longer current never is again, and no status report follows from it |
| Displacement.DisplacedIsPowerless | internal/relay/handler.go:345-388 | no frame of such a connection is written anywhere, its policy messages change nothing, and its teardown changes no group |
| Displacement.DisplacedNeverReaches | internal/relay/handler.go:260-264 | in every interleaving no frame a displaced bridge sends later is written to anyone, whatever happened in between |
| Displacement.OfflineOnlyWhenGone | internal/relay/handler.go:311-324 | in every interleaving when a leaving handler decides to report offline, which it does iff it was current and its id is not live in the registered group, its own connection is in no group any more |
| Displacement.TakeoverDisplaces | internal/relay/account_group.go:114-117 | a same-id join and its own removal make a connection not current at once |
| Displacement.OfflinePolicyIsLastAwake | internal/relay/handler.go:324-334 | in every interleaving an offline report carries the last policy other than suppress of everything its socket announced, no message dropped, and no other policy |
| Displacement.PoliciesAsSent | internal/relay/handler.go:345-357 | in every interleaving each report names the user and bridge id its handler arrived with; online it has the policy asked for, offline the last string sent other than "suppress", or "suppress" if there is none; strings other than these and "normal" count as "conservative" |
| Displacement.ReportsComeInPairs | internal/relay/handler.go:280-334 | in every interleaving a connection is reported online at most once and offline at most once, offline only after online |
| Anchors.AnchorIsDecidedAtJoin | internal/relay/group_manager.go:35-44 | between any two moments of a membership the group is registered and unthreatened at both or at neither |
| Anchors.StaleExactlyIfStaleAtJoin | internal/relay/handler.go:144-151 | a member is in its registered group later iff the fetched group was registered and unthreatened at its join, whenever the registry is unlocked, and in the forward direction always |
| Anchors.AnchoredMembersMeet | internal/relay/account_group.go:23-27 | two such members of one account share one group |
| Witnesses.StaleTakeoverHappens | internal/relay/handler.go:213-214 | a run of the relay in which a takeover of A by an older-stamped A moves an unpinned phone to B |
| Witnesses.StaleJoinHappens | internal/relay/handler.go:144-151 | a concrete interleaving leaves a live bridge and a phone of one account in different groups |
| Announcements.AnnounceTargetChanges | internal/relay/handler.go:465-478 | leaves out nobody; a bridge hears of a phone directly after that phone heard of that bridge, and of its loss directly before that phone hears its new target |
| Announcements.JoinTellsBridgeFirst | internal/relay/handler.go:408-414 | at a phone's join its bridge hears first, and the phone hears last and once |
| Announcements.AnnouncePresence | internal/relay/handler.go:483-487 | writes one presence notice to each listed phone |
| Views.ChangeEffect | internal/relay/handler.go:459-478 | the messages of one change take the phone out of the old bridge's picture, into the new one's, and name the new target to the phone |
| Views.ChangeAgrees | internal/relay/handler.go:459-478 | replaying one change moves every picture to the changed routing table |
| Views.WholeReportAgrees | internal/relay/handler.go:465-478 | replaying an exact report, in any order, moves every picture from the old targets to the new ones |
| Views.PhoneJoinAgrees | internal/relay/handler.go:408-414 | a phone's join notices keep every picture right |
| Views.PhoneLeaveAgrees | internal/relay/handler.go:416-420 | a phone's leave notice keeps every other picture right |
| Notices.ReportInbox | internal/relay/handler.go:459-464 | of a report a moved phone hears one notice, its new target or that it has none, never an offline notice first; any other phone hears nothing |
| Notices.PhoneHears | internal/relay/handler.go:480-482 | a phone hears its notice, if it moved, before the presence of the bridge, and nothing else |
| GroupViews.JoinBridgeViews | internal/relay/handler.go:275-278 | a bridge's join with its announcements keeps target and presence pictures right |
| GroupViews.LeaveBridgeViews | internal/relay/handler.go:311-322 | a bridge's leave with its announcements keeps target and presence pictures right |
| SerialRuns.StepKeepsInv | internal/relay/handler.go:205-337 | every serial operation keeps memberships, pictures and statuses right |
| SerialRuns.ViewsAgree | internal/relay/handler.go:408-422 | in every serial run each current bridge knows exactly the phones that talk to it, with no duplicate connect or unmatched disconnect, each phone's last notice names its target, or the pinned bridge it waits for, and presence is true |
| SerialRuns.StatusesAgree | internal/relay/handler.go:280-334 | in every serial run the last status of a bridge id is online iff it is live, and two offline reports have an online one between them |
| SerialRuns.LeaveIsNoticed | internal/relay/handler.go:314-322 | in a serial run a leaving current bridge is never hidden by another instance of its group |
| SerialNotices.PhonesHearJoin | internal/relay/handler.go:275-278 | in every serial run a joining bridge has each phone of the account sent exactly its new target, if that changed, and then that the bridge is online |
| SerialNotices.PhonesHearLeave | internal/relay/handler.go:311-322 | in every serial run a leaving current bridge has each phone sent exactly its next target or that it has none, if that changed, and then that the bridge is offline |
| SerialWitness.SerialRunIsRelayRun | internal/relay/handler.go:95-152 | every serial run is an interleaving of the step system |
| SerialWitness.JoinCanHappen | internal/relay/handler.go:205-278 | from every serial state any new bridge below its address limit can come and join or be turned down |
| SerialWitness.LeaveCanHappen | internal/relay/handler.go:306-337 | from every serial state any joined bridge, current or displaced, can leave |
| SerialWitness.PhoneJoinCanHappen | internal/relay/handler.go:394-414 | from every serial state any new phone below its address limit can come and join or be turned down |
| SerialWitness.PhoneLeaveCanHappen | internal/relay/handler.go:416-422 | from every serial state any joined phone can leave |

## Left out

- AccountGroups.AccountGroup.AddPhone: returns the phone with its connId instead of writing the field of a shared object; the object is not visible to any other handler before it is registered, so only the aliasing is lost.
- AccountGroups.AccountGroup.ChangeBridges: the mutation is given as the bridge map it produces instead of as a closure.
- Relay.Next: a status report is logged in the step that decides to send it; the order in which the reporting goroutines reach the notification server is not modelled.
- Relay.Next: the check of `AllowGroup` is one of the reasons a handler may give up before it has a group; it reads a snapshot of the group count and bounds nothing later.
- SerialRuns.ViewsAgree: pictures under arbitrary interleavings, because announcements are written outside the group lock and may overtake each other.
- Websocket reads and writes, close handshakes and codes, the ping loop, deadlines and dropped peers: a write appends to a log and always arrives.
- Authentication, JSON parsing, bridge id and device id syntax, client address resolution: the user id, a non-empty bridge id and the address are inputs. Bridge ids are ordered as character sequences, which is byte order for the ids the relay accepts.
- The clock: the connection time is an arbitrary input, so clocks that stand still or run backwards are covered.
- The phone's connection-observed report and the contents of status reports other than user, bridge id, status and policy.
- The notification client and its answers, including the closing of a revoked bridge: a handler may leave at any time.
- Mailbox.MailboxIsSafe: the channel, the select statements and the context check are steps of their own; the HTTP call is a start and an end.
- Encryption framing, server startup, flags, health endpoints and logging.
