# Dispatch of emergency calls: a Dafny model

The backend hands emergency calls to operators on shift. Operators, admins, requesters and a 30-second
cron act on the same session and user rows at once; two devices keep them apart: a `SELECT ... FOR UPDATE`
on the operator row and single-row updates whose `where` clause carries the precondition. This project
models that protocol and what surrounds it, and proves what it keeps for every run.

| file | content |
|---|---|
| `rows.dfy`, `handlers.dfy` | the rows; each handler as the stages its statements form (unlocked checks, tests on the locked operator row, count of open calls, conditional update, re-read after a failed update) |
| `runs.dfy`, `promises.dfy` | what every committed handler keeps; conservation over whole runs; the answers and written fields each endpoint promises, stated on the rows, and what follows for whole runs |
| `statements.dfy`, `interleaving.dfy` | any number of handlers, interleaved statement by statement under READ COMMITTED with explicit operator-row and session-row locks; refinement to one-at-a-time runs, safety, audience, deadlock freedom, draining |
| `witnesses.dfy` | concrete interleavings: what goes wrong without the lock, and what the lock does not exclude |
| `presence.dfy`, `redis.dfy` | heartbeat printing, parsing and thresholds; leases and expiring keys as a class over a clock |
| `lease.dfy` | simultaneous SOS triggers under the token lease, and without it |
| `fanout.dfy`, `audience.dfy` | rooms, recipients, events, and the operator's screen as a fold over events; who hears what, role by role |
| `services.dfy`, `emergency.dfy`, `membership.dfy`, `cron.dfy` | the services as classes that update tables in place and emit events, proved against the specifications above; the cron loops run while other actors act between their calls to the stores, any of which may fail |
| `realtime.dfy` | time bounds for silent operators, under any interference; when a reclaim hits somebody alive |
| `tenancy.dfy`, `subscription.dfy`, `entitlement.dfy`, `review.dfy` | organizations, venues, memberships; subscription clean-up; what each operation leaves of every membership and who may raise an SOS, role by role; concurrent review of applications |

A row lock is held to the end of its transaction, a statement sees the committed rows, a conditional update is
one compare-and-set on its row, and a rollback leaves nothing: these properties of the database are built into
`Statements.Next` and `Review.Next`. Clock values, fresh uuids and the schedule of other actors are parameters.
Every handler method of the classes keeps `Database.Valid`: coherent calls, one open call per operator, open calls only on shift.
The caller of an endpoint is a known user with the role the endpoint demands.

## Where the code does less than its comments say

- `admin.service.ts:205-207` calls the early read of the previous assignee harmless. It can name somebody who lost the call before, or nobody, and then the operator who loses it now is not told: `Witnesses.StaleReadMissesTheLoser`. `Interleaving.LoserIsToldIff` says exactly when he is, `Interleaving.RobbedIsToldIff` the same for unassigning and for an admin's close, which read as early (`admin.service.ts:257-260`, `admin.service.ts:920-923`).
- Two deletions of one operator can both succeed, because `deletedAt` is read before the lock (`admin.service.ts:493`): `Witnesses.BothDeletionsCommit`. Every other guard still holds at the commit: `Interleaving.CommitIsHandlerAtOnce`.
- The error after a failed conditional update is chosen from a later read, so it can be untrue of the call then: `Witnesses.OpenCallReportedClosed`. For every handler it is right exactly if run alone at the re-read it would pass its guards and find no row (`Interleaving.RereadIsTrueIff`); unassigning, closing and locating are always right (`Interleaving.LateRereadIsRight`).
- The cron update is conditional on the assignee, not on the judgement. It hits an operator who is alive exactly if he has beaten between the two, less than two minutes before the update (`RealTime.ReclaimHitsTheLivingIff`); a single ping suffices (`RealTime.ReclaimFromTheLiving`).
- One open SOS per user depends on Redis answering and on the 30 s lease not lapsing: `Lease.RedisDownTwoCalls`, `Lease.LapsedLeaseTwoCalls`. Whatever happens, duplicates come only from overlapping triggers: `Lease.DuplicatesNeedOverlap`.
- A Redis failure can turn an alarm away after all: a lease whose release failed (logged and ignored, `emergency.service.ts:76-84`), or whose key was set although the request for it failed, blocks its user for up to 30 s with nobody at work (`Lease.FailedReleaseTurnsAway`); `Lease.NobodyInTheWayIff` says exactly when.
- A demo activation does not clear an old expiry date, so a user whose subscription has lapsed stays refused: `Subscription.DemoDoesNotRevive`.
- The "already assigned to this operator" answer of reassign cannot occur when handlers run alone (`Runs.SameHolderIsReportedBusy`); an assignment that commits between its update and its re-read produces it (`Witnesses.SameHolderIsReported`).
- A handler that changes a shift commits the row first and moves the sockets later; if it fails in between, the operator's sockets hear offers by the old flag (`Fanout.UnmovedSocketsFollowTheOldFlag`). Starting, ending or setting the shift again repairs that. The cron, whose loop stops at the first failing transaction, never returns to a shift it has ended untold (`Fanout.RepeatingMovesTheSockets`, `Cron.CronService.DropDeadShifts`).
- The worst case of this is a deletion: if revoking the account's sessions fails after the commit (`admin.service.ts:545`), the sockets of the deleted operator stay connected and go on hearing offers with full cards, which `websocket.gateway.ts:247-251` means to prevent, and deleting again is refused as "not found" (`Services.AdminService.DeleteOperator`, `Fanout.RepeatingMovesTheSockets`).
- The event table of the repository's README omits that an admin's close also goes to the previous assignee; the model follows the code (`admin.service.ts:953-957`).

## Model

| member | source | states |
|---|---|---|
| Runs.OthersCallsOnlyShrink | src/common/prisma/operator-lock.ts:3-17 | only a handler that locks the operator can add to his open calls |
| Runs.CommitKeepsGood | src/modules/dispatch/dispatch.service.ts:245-286 | every committed handler keeps: coherent calls, at most one open call per operator, open calls only on shift |
| Runs.ClosedIsFrozen | src/modules/emergency/emergency.service.ts:224-302 | no handler changes any field of a closed call, locations included |
| Runs.SameHolderIsReportedBusy | src/modules/admin/admin.service.ts:214-252 | run alone, reassigning a call to its holder is refused as busy and the dedicated answer never given |
| Runs.OnlyAdminsRestartTheClock | src/modules/dispatch/dispatch.service.ts:146-157 | shift flag and shift start go together, and a running shift's start changes only by an admin's "put on shift" |
| Runs.ClosedStaysFrozen | src/modules/dispatch/dispatch.service.ts:62-80 | closed is terminal over whole runs |
| Runs.ClosedExactlyOnce | src/modules/admin/admin.service.ts:924-932 | the number of committed closes of a call is 1 if it ends up closed, else 0 |
| Runs.ClaimsMinusReturns | src/modules/admin/admin.service.ts:262-269 | until a call is closed, claims minus returns is 1 while it is held and 0 while it is in the pool |
| Runs.OneWinnerPerStay | src/modules/dispatch/dispatch.service.ts:240-244 | between two claims of a call lies a return: one winner per stay in the pool |
| Promises.AnswersAreObstacles | src/modules/dispatch/dispatch.service.ts:245-315 | guards, `where` clause and diagnosis of every handler together answer the first obstacle found looking at the rows in order |
| Promises.CommitWrites | src/modules/admin/admin.service.ts:217-228 | every committed handler writes exactly the fields its endpoint names and leaves every other field and row |
| Promises.ClaimedCallWaits | src/modules/admin/admin.service.ts:224-227 | whoever gets a call gets it ASSIGNED, even if another had begun it |
| Promises.InProgressWasBegunByHolder | src/modules/dispatch/dispatch.service.ts:21-40 | over whole runs, a call in progress was begun by the operator who holds it |
| Promises.LocationsAreKept | src/modules/emergency/emergency.service.ts:224-241 | over whole runs, the locations of a call are those sent, in commit order, none lost or doubled |
| Promises.ClosedAsAsked | src/modules/dispatch/dispatch.service.ts:62-80 | a closed call carries the time, text and holder of the one request that closed it |
| Promises.CallsAreAsLeft | src/modules/admin/admin.service.ts:214-229 | both in every interleaving: begun by its holder, locations exactly those committed |
| Statements.WriteLeavesOthersOk | src/common/prisma/operator-lock.ts:3-17 | a commit under other locks cannot undo a guard another transaction has passed |
| Statements.CommitIsAtomic | src/common/utils/prisma-errors.ts:3-9 | the statement that commits makes exactly the one-at-a-time step of its handler, every other statement changes no row |
| Statements.StepKeepsInv | src/modules/dispatch/dispatch.service.ts:167-185 | every statement of every interleaving keeps the locks, the passed guards and the rows in order |
| Interleaving.InterleavingRefinesRun | src/modules/dispatch/dispatch.service.ts:247-286 | every interleaving leaves the rows of its committed handlers run one after another in commit order |
| Interleaving.OneCallPerOperatorOnShift | src/modules/admin/admin.service.ts:307-338 | in every interleaving each operator has at most one open call and is on shift while he has it |
| Interleaving.CallsStayCoherent | src/modules/admin/admin.service.ts:1283-1291 | in every interleaving status, assignee and closing time of a call fit together |
| Interleaving.ClaimsMinusReturnsInterleaved | src/modules/cron/cron.service.ts:87-100 | conservation of claims and returns over the commits of an interleaving |
| Interleaving.OneCloserWins | src/modules/emergency/emergency.service.ts:266-276 | of all closers racing for a call exactly one commits, and the closed call never changes |
| Interleaving.GuardsRefuseTruthfully | src/modules/admin/admin.service.ts:311-337 | a refusing guard answers what the handler run alone at that moment answers |
| Handlers.DiagnosisIsTrueIff | src/modules/dispatch/dispatch.service.ts:287-315 | the error chosen after a failed update is the handler's own exactly if its guards pass and no row matches |
| Interleaving.RereadIsTrueIff | src/modules/admin/admin.service.ts:235-252 | the answer of every re-read is right at that moment exactly if the guards would pass and no row match then |
| Interleaving.LateRereadIsRight | src/modules/emergency/emergency.service.ts:277-302 | unassigning, closing and locating answer the same and rightly however late they re-read, unless the missing call is raised in between |
| Interleaving.CommitIsHandlerAtOnce | src/modules/admin/admin.service.ts:492-543 | a commit is accepted by the handler run alone there, except a deletion of somebody deleted meanwhile |
| Interleaving.CardsGoToHoldersOnly | src/modules/websocket/websocket.gateway.ts:333-420 | in every interleaving an operator is sent a full card only after having been its assignee |
| Interleaving.LoserIsToldIff | src/modules/admin/admin.service.ts:204-234 | the operator who loses a call to a reassignment is told exactly if the early read still names him |
| Interleaving.RobbedIsToldIff | src/modules/admin/admin.service.ts:256-291 | the operator whose call is unassigned or closed by an admin is told exactly if the early read still names him |
| Interleaving.SomebodyCanMove | src/modules/dispatch/dispatch.service.ts:173-185 | unless all handlers are finished, one can take its next statement: no deadlock |
| Interleaving.EveryScheduleDrains | src/modules/cron/cron.service.ts:182-196 | under every scheduler the begun handlers finish within a number of statements known in advance |
| Witnesses.WithoutLockTwoOpenCalls | src/common/prisma/operator-lock.ts:3-11 | two accepts that skip the lock give one operator two open calls |
| Witnesses.WithoutLockStrandedCall | src/modules/dispatch/dispatch.service.ts:168-172 | an end of shift that skips the lock leaves a call on an operator off shift |
| Witnesses.RunsThrough | src/modules/dispatch/dispatch.service.ts:247-286 | with no locks taken, every handler nothing refuses runs through to its commit |
| Witnesses.BothDeletionsCommit | src/modules/admin/admin.service.ts:492-543 | two deletions of one operator can both commit |
| Witnesses.StaleReadMissesTheLoser | src/modules/admin/admin.service.ts:205-234 | a reassignment can be about to tell an operator who lost the call earlier instead of the one losing it |
| Witnesses.SameHolderIsReported | src/modules/admin/admin.service.ts:235-252 | an interleaving in which a reassignment answers "already assigned to this operator" |
| Witnesses.OpenCallReportedClosed | src/modules/dispatch/dispatch.service.ts:88-102 | a resolve can answer "already closed" about an open call of its caller |
| Witnesses.ResolveAnswerIsTrueIff | src/modules/dispatch/dispatch.service.ts:88-102 | that answer is true exactly unless the call is the caller's open call at the re-read |
| Presence.HeartbeatRoundTrip | src/common/constants/operator-presence.ts:44-49 | a printed heartbeat parses back to the same time |
| Presence.PrintsDecimals | src/redis/redis.service.ts:58-65 | what is printed is the decimal notation of the time |
| Redis.ExpiryNeverMatters | src/common/constants/operator-presence.ts:11-19 | for thresholds up to 300 s, freshness read from expiring keys is freshness on a map that never expires |
| Redis.BeyondTheTtl | src/common/constants/operator-presence.ts:11-12 | for longer thresholds the two differ exactly once the key has expired |
| Redis.BatchAgrees | src/modules/cron/cron.service.ts:166-175 | the batch read judges silence like the single read |
| Redis.RedisService.AcquireLock | src/redis/redis.service.ts:42-51 | takes the key only if it is free, with a token never used before |
| Redis.RedisService.ReleaseLock | src/redis/redis.service.ts:7-16 | frees the key only of its own token and never another token's lock |
| Redis.RedisService.SetOperatorHeartbeat | src/redis/redis.service.ts:58-65 | the expiring store keeps following the map of last beats |
| Redis.RedisService.GetOperatorHeartbeat | src/redis/redis.service.ts:67-69 | what it returns is fresh for every threshold up to the TTL exactly if the last beat is |
| Redis.RedisService.GetOperatorHeartbeats | src/redis/redis.service.ts:75-91 | the batch holds the last beat of exactly the listed operators whose key lives |
| Lease.HealthyStepKeepsExclusive | src/modules/emergency/emergency.service.ts:42-85 | while requests for leases are answered and each holder leaves within its 30 s, the holder still owns the lease and one process per user is in the critical section |
| Lease.OneOpenCallPerUser | src/modules/emergency/emergency.service.ts:34-97 | from a fresh start every healthy interleaving of triggers, failing releases included, keeps at most one open call per user and one process per user inside |
| Lease.DuplicatesNeedOverlap | src/modules/emergency/emergency.service.ts:34-55 | in every interleaving at all, two open calls of a user come from overlapping check-to-insert windows, and a process whose own request for the lease failed is never told to wait |
| Lease.BlockedIffLeased | src/redis/redis.service.ts:42-51 | a trigger that asks Redis is held up exactly while a lease of its user lives |
| Lease.NobodyInTheWayIff | src/modules/emergency/emergency.service.ts:57-85 | while a lease lives, nobody works for its user exactly if the process it was given to is done and no process at work went without an answer or outlived its own lease; it was then left behind by a failed release or a lost reply, and lives for 30 s at most |
| Lease.FailedReleaseTurnsAway | src/modules/emergency/emergency.service.ts:73-85 | after a failed release the next trigger is told to wait with no call open and nobody at work |
| Lease.RedisDownTwoCalls | src/modules/emergency/emergency.service.ts:47-55 | with Redis down two triggers of one user can both raise a call |
| Lease.LapsedLeaseTwoCalls | src/modules/emergency/emergency.service.ts:18-20 | from a fresh start, a lease that lapses under its holder lets a second trigger through, with no Redis failure |
| Fanout.RoomsFollowShifts | src/modules/websocket/websocket.gateway.ts:247-267 | between handlers a socket is in the broadcast room exactly if its operator is on shift, and nobody deleted has a socket |
| Fanout.OfferReachesExactlyTheFree | src/modules/websocket/websocket.gateway.ts:276-321 | an offer reaches an operator's socket exactly if he is on shift without an open call, or merely on shift if the query for the busy ones fails |
| Fanout.UnmovedSocketsFollowTheOldFlag | src/modules/admin/admin.service.ts:534-551 | if a shift change or a deletion fails before the sockets move, the rooms are right only if the flag is unchanged in no deletion or nobody is connected, and offers follow the old flag |
| Fanout.RepeatingMovesTheSockets | src/modules/cron/cron.service.ts:178-206 | the same request again repairs the rooms, except the cron's and a deletion, which are then refused and change nothing |
| Fanout.ScreenShowsThePool | src/modules/dispatch/dispatch.service.ts:201-238 | for an operator connected, on shift and free, folding the events over any run shows exactly the pool, failing busy queries or not |
| Fanout.CardsReachOnlyWhoWorksTheCall | src/modules/websocket/websocket.gateway.ts:323-420 | a full card reaches exactly the assignee after the handler and the one it was taken from; the pool gets an id only |
| Audience.EverythingIsAnnounced | src/modules/websocket/websocket.gateway.ts:284-331 | each handler that goes through emits these kinds of events in this order, each carrying the call as it is afterwards, the pool only an id |
| Audience.EventsReachExactlyTheirAudience | src/modules/websocket/websocket.gateway.ts:338-420 | every event is heard by exactly those it is meant for: requesters the cards of their calls, admins all cards and offers but those of their own unassigning, operators offers while free, removals while on shift, the end of their own shift, and the cards of calls they work on or just lost |
| Services.WebsocketGateway.HandleConnection | src/modules/websocket/websocket.gateway.ts:62-118 | joins the rooms the user's row asks for; an operator gets his open calls, and each pool call once, up to a hundred, if free and on shift |
| Services.WebsocketGateway.RoomsOf | src/modules/websocket/websocket.gateway.ts:338-348 | the loop yields exactly the admin room, the requester's room and the rooms of the operators given |
| Services.WebsocketGateway.BusyOperatorRooms | src/modules/websocket/websocket.gateway.ts:355-368 | exactly the rooms of operators with an open call |
| Services.WebsocketGateway.OfferToFreeOperators | src/modules/websocket/websocket.gateway.ts:305-321 | one offer event, to everybody on shift except the busy, or to everybody on shift if the busy are unknown |
| Services.WebsocketGateway.GetConnectedOnShiftOperatorIds | src/modules/websocket/websocket.gateway.ts:237-245 | exactly the users with a socket in the broadcast room |
| Services.WebsocketGateway.SetOperatorShiftRoom | src/modules/websocket/websocket.gateway.ts:260-267 | every socket of the operator is in the broadcast room exactly if he is on shift, its other rooms and all other sockets unchanged |
| Services.DispatchService.AcceptSession | src/modules/dispatch/dispatch.service.ts:245-315 | rows, answer and events of the handler run alone: answered with the first obstacle, or exactly the promised fields written |
| Services.DispatchService.StartProgress | src/modules/dispatch/dispatch.service.ts:21-60 | rows, answer and events of the handler run alone: answered with the first obstacle, or exactly the promised fields written |
| Services.DispatchService.ResolveSession | src/modules/dispatch/dispatch.service.ts:62-103 | rows, answer and events of the handler run alone: answered with the first obstacle, or exactly the promised fields written |
| Services.DispatchService.StartShift | src/modules/dispatch/dispatch.service.ts:146-165 | rows and rooms of the handler run alone, and the heartbeat is seeded; if that write fails the row stays committed and the sockets stay |
| Services.DispatchService.EndShift | src/modules/dispatch/dispatch.service.ts:167-199 | rows, rooms and answer of the handler run alone |
| Services.DispatchService.GetPool | src/modules/dispatch/dispatch.service.ts:205-238 | each pool call once; nothing off shift or with an open call |
| Services.AdminService.AssignSession | src/modules/admin/admin.service.ts:164-202 | rows, answer and events of the handler run alone: answered with the first obstacle, or exactly the promised fields written |
| Services.AdminService.ReassignSession | src/modules/admin/admin.service.ts:204-254 | rows, answer and events of the handler run alone: answered with the first obstacle, or exactly the promised fields written |
| Services.AdminService.UnassignSession | src/modules/admin/admin.service.ts:256-291 | rows, answer and events of the handler run alone: answered with the first obstacle, or exactly the promised fields written |
| Services.AdminService.CloseSessionAdmin | src/modules/admin/admin.service.ts:917-969 | rows, answer and events of the handler run alone: answered with the first obstacle, or exactly the promised fields written |
| Services.AdminService.SetOperatorShift | src/modules/admin/admin.service.ts:571-614 | rows, rooms, answer and events of the handler run alone |
| Services.AdminService.DeleteOperator | src/modules/admin/admin.service.ts:492-554 | rows, rooms, answer and events of the handler run alone; if revoking the sessions fails the rows stay committed and the sockets connected |
| Cron.OwnWritesAreHandlers | src/modules/cron/cron.service.ts:84-197 | the tick's two conditional writes are exactly the reclaim and drop handlers of the interleaving model |
| Cron.CronService.ReclaimOne | src/modules/cron/cron.service.ts:84-112 | rows and events of the conditional update run alone: one card event, one offer |
| Cron.CronService.ReclaimSilentCalls | src/modules/cron/cron.service.ts:59-119 | whatever others do and whatever call fails meanwhile, only ASSIGNED calls are taken, each from the assignee this tick judged silent and each offered once; if no call fails, no call waits for a silent operator all the while; undisturbed, exactly the stale calls go back |
| Cron.CronService.DropDeadShifts | src/modules/cron/cron.service.ts:152-211 | whatever others do meanwhile, only operators judged gone and without open calls leave the shift, and exactly those are told unless a later transaction fails; if no call fails, no dead shift lasts all the while; undisturbed, exactly the dead shifts end |
| Cron.CronService.CheckStaleAssignments | src/modules/cron/cron.service.ts:37-135 | it runs exactly if Redis gives it the lease; a true account of every write under any interference and failures; without failures a completed tick (beats first, then waiting calls, then shifts) whatever others do; undisturbed the declarative tick |
| RealTime.SilenceInNumbers | src/common/constants/operator-presence.ts:24-36 | silent is 120 s without a beat, gone is 180 s |
| RealTime.SilentCallIsBackInTime | src/modules/cron/cron.service.ts:37-119 | whatever others do in and between ticks, a call of an operator silent since L, assigned at A, no longer waits for him by max(L+120 s, A) plus the longest wait for a completed tick; it is then in the pool unless a committed request other than a location has changed it |
| RealTime.SilentShiftEndsInTime | src/common/constants/operator-presence.ts:28-36 | whatever others do, an operator silent since L is off shift by max(L+180 s, B) plus the longest wait for a completed tick, unless he has a call in progress or a committed request has given him a call during that tick |
| RealTime.TickSparesCallsInProgress | src/modules/cron/cron.service.ts:154-163 | no write of a tick, under any interference, touches a call in progress or the shift of its operator |
| RealTime.QuietTickEndsShiftIff | src/modules/cron/cron.service.ts:152-211 | an undisturbed tick ends a gone operator's shift exactly if he has no call in progress |
| RealTime.SilentLaterIff | src/modules/cron/cron.service.ts:69-100 | an operator judged silent is silent later exactly if his last beat since, if any, is 120 s old |
| RealTime.ReclaimHitsTheLivingIff | src/modules/cron/cron.service.ts:69-100 | a reclaim hits somebody alive exactly if he beat between judgement and update, less than 120 s before the update |
| RealTime.ReclaimFromTheLiving | src/modules/cron/cron.service.ts:87-92 | it happens: a ping right after the judgement, and the call is taken all the same |
| Tenancy.DispatchKeepsPlaces | src/modules/emergency/emergency.service.ts:194-204 | no dispatch handler moves a call to another organization or venue |
| Tenancy.OperationsKeepConsistency | src/modules/admin/admin.service.ts:1228-1302 | every operation keeps bound venues in the membership's organization and placed calls in their venue's, deletes included |
| Tenancy.OwnersStayUnique | src/modules/admin/admin.service.ts:1334-1353 | one at a time, operations never give an organization a second owner |
| Tenancy.OwnerIsLostExactlyBy | src/modules/admin/admin.service.ts:1376-1446 | an owned organization loses its owner exactly by its deletion, the owner's approved application or his deletion |
| Tenancy.CourseKeepsOrder | src/modules/venue/venue.service.ts:61-131 | over whole runs: consistent, one owner each, and an owned organization stays owned unless an operation on the way takes the owner it then has |
| Tenancy.DeletionSparesOpenCalls | src/modules/admin/admin.service.ts:1283-1295 | deleting an organization is refused exactly while it has a call not closed, and touches no open call |
| Membership.Registry.Create | src/modules/organization/organization.service.ts:12-39 | result and tables of the operation |
| Membership.Registry.DemoteCurrentOwner | src/modules/admin/admin.service.ts:1417-1432 | whoever owns the organization becomes a manager |
| Membership.Registry.AddOrganizationMember | src/modules/admin/admin.service.ts:1304-1353 | result and tables of the operation; consistency and single ownership kept |
| Membership.Registry.UpdateOrganizationMember | src/modules/admin/admin.service.ts:1355-1399 | result and tables of the operation; consistency and single ownership kept |
| Membership.Registry.RemoveOrganizationMember | src/modules/admin/admin.service.ts:1434-1454 | result and tables of the operation; an owner is never removed |
| Membership.Registry.BindByInviteCode | src/modules/venue/venue.service.ts:61-131 | a plain membership of the code's organization or venue replaces the old one, never an owner's |
| Entitlement.MembershipAfterwards | src/modules/admin/admin.service.ts:1304-1454 | after every operation everybody's organization, venue and role are the ones named, user by user |
| Entitlement.PlacesAfterwards | src/modules/admin/admin.service.ts:1228-1302 | exactly which organizations and venues there are after every operation |
| Entitlement.CallsAfterwards | src/modules/admin/admin.service.ts:1228-1302 | deleting a venue or organization makes calls forget it and changes nothing else about any call |
| Entitlement.AcceptedIffAllowed | src/modules/venue/venue.service.ts:61-131 | an operation is accepted exactly if what it demands holds |
| Entitlement.FromAVenue | src/modules/emergency/emergency.service.ts:113-151 | who may raise an SOS from a venue, role by role, and where the call then belongs |
| Entitlement.FromAnywhere | src/modules/emergency/emergency.service.ts:152-187 | owners and subscribers before their date may raise a personal SOS, placed in their organization; else the refusal code |
| Entitlement.VenueCodeEntitlesThere | src/modules/venue/venue.service.ts:100-124 | a venue's invite code entitles to that venue and no other |
| Entitlement.OrgCodeEntitlesEverywhere | src/modules/venue/venue.service.ts:82-98 | an organization's code entitles to exactly its venues |
| Entitlement.ApprovalEntitlesToTheBranches | src/modules/admin/admin.service.ts:814-850 | an approved applicant may raise an SOS from his branches, from no older venue, and without a venue |
| Entitlement.DemotedOwnerIsManager | src/modules/admin/admin.service.ts:1417-1432 | the new owner is entitled everywhere in the organization, the old one where a manager is |
| Entitlement.LeaversAreRefused | src/modules/admin/admin.service.ts:1434-1454 | who was removed or has left is entitled to no venue |
| Entitlement.ApprovalAdmitsUntil | src/modules/admin/admin.service.ts:1055-1088 | an approved subscription admits its user exactly until its date, thirty days ahead if none is given |
| Entitlement.DeletionEndsSubscription | src/modules/users/users.service.ts:186-210 | deleting an account ends its subscription and no other |
| Emergency.EmergencyService.Entitle | src/modules/emergency/emergency.service.ts:101-192 | the cascade of queries equals one declarative rule for who may raise an SOS and where it belongs |
| Emergency.EmergencyService.StartSessionLocked | src/modules/emergency/emergency.service.ts:88-213 | an open call is returned; otherwise exactly the entitled get a new one, placed and offered |
| Emergency.EmergencyService.StartSession | src/modules/emergency/emergency.service.ts:42-86 | the open call if there is one; else "in progress" exactly if Redis answers the request and a lease is held; else the rule decides, so an unanswered request refuses nobody entitled; no other lease is freed, the own one is unless its release fails |
| Emergency.EmergencyService.AddLocation | src/modules/emergency/emergency.service.ts:224-264 | rows, answer and events of the handler run alone: answered with the first obstacle, or exactly the promised fields written |
| Emergency.EmergencyService.CloseSession | src/modules/emergency/emergency.service.ts:266-302 | rows, answer and events of the handler run alone: answered with the first obstacle, or exactly the promised fields written |
| Subscription.CleanUpIsInvisible | src/modules/cron/cron.service.ts:231-248 | runs with and without clean-ups agree at every instant on who may raise a personal SOS |
| Subscription.OnlyTheCodeDiffers | src/modules/emergency/emergency.service.ts:177-187 | only the refusal code can differ, exactly when a clean-up has put out the flag |
| Subscription.DemoDoesNotRevive | src/modules/users/users.service.ts:87-100 | a demo activation admits its user exactly if no past expiry date remains |
| Review.ParseApplicationBranches | src/modules/admin/admin.service.ts:697-736 | a list exactly if every branch has a name that is not blank, then one row per branch in order: the branch's own latitude and longitude, name and address without the blanks around them |
| Review.StepKeepsInv | src/modules/admin/admin.service.ts:814-874 | every statement of every interleaving of decisions keeps organizations, venues, owners and decisions together |
| Review.DecidedIsFrozen | src/modules/admin/admin.service.ts:889-914 | a decided application never changes again |
| Review.OneAdminDecides | src/modules/admin/admin.service.ts:852-855 | of all admins deciding an application at most one succeeds |
| Review.ApprovalsConserve | src/modules/admin/admin.service.ts:814-882 | exactly the approved applications have an organization, one each, with one venue per branch that says what the application said of it; losers leave nothing |
| Review.ApplicantOwnsIt | src/modules/admin/admin.service.ts:844-850 | the applicant owns the approved organization unless another application of his was approved too |
| Review.ApplicantOwnsTheLast | src/modules/admin/admin.service.ts:840-850 | of the organizations approved for him the applicant owns exactly the one whose approval was committed last |

## Left out

- Controllers, DTO validation, guards, mail, push, Telegram, tokens and passwords, metrics: wiring and library calls without unbounded properties.
- Socket.IO transport and the asynchronous order of emits: an emit happens together with its handler in `Fanout` and `Services`, and as one later statement in `Statements`; no exact screen is claimed for reordered emits.
- Foreign-key share locks, and the membership and reset-token deletes of an operator deletion, are not part of the deadlock argument.
- Failures inside Socket.IO while a room is left or joined; failing calls to Redis and the database are modelled where the code handles them (lease, heartbeats, the cron's loops, the busy query) and as `Fail` steps elsewhere.
- Fields that no modelled decision reads: e-mails, names, phones, creation times, and with them the order and pagination of lists.
- Invite-code generation and upper-casing, slugs: codes arrive normalized and organizations, venues and calls get fresh ids.
- `Number` precision above 2^53 and Unicode blanks beyond the basic ones in `parseInt` and `trim`.
- Approval and rejection of subscription requests: the same compare-and-set as for applications; `Subscription` takes their effect.
- RealTime.SilentCallIsBackInTime: assumes a tick that begins after any given moment and is completed without a failing call within a given time; with the 30 s schedule and no failures that time is 30 s plus the tick's duration.
- Interleaving.CardsGoToHoldersOnly: covers the events that carry the card of a held call; offers of unclaimed calls go to free operators by design and are covered by `Fanout.OfferReachesExactlyTheFree`.
- Lease.OneOpenCallPerUser: one direction only; a lapsed lease or an unanswered request makes duplicates possible, not certain, as the two witness runs and `Lease.DuplicatesNeedOverlap` show.
- Tenancy.OwnersStayUnique: for operations one at a time; interleaved ownership transfers are not covered, since nothing locks the organization.
- Review.ApplicantOwnsIt: other membership operations on the applicant after the approval are not part of the review machine.
