# Collaborative boards, verified

A Dafny model of a collaborative task board: a FastAPI service on PostgreSQL, several server
instances that hold WebSockets, a lossy Redis Pub/Sub channel between them, and a browser client
that refetches on events. The model covers what happens when things run at the same time, and the
proofs are about every schedule: each step function is total (a step that is not possible changes
nothing), so every sequence of labels is a schedule, and the main results are about all of them.

| Module | About |
|---|---|
| `Models`, `TaskStore`, `RowLocks`, `TaskHistory`, `Races`, `TaskService` | Optimistic task writes: UPDATE under READ COMMITTED row locks, the atomic compare-and-swap it refines, what rows and answers say about the schedule, who wins a race, and the service function as imperative code |
| `Hub`, `HubLifecycle`, `HubDelivery`, `HubBroadcasts`, `HubRevocation`, `HubRecovery`, `HubResync`, `Instance` | One server instance: socket registry, listener tasks, from publishing to broadcast to socket, revocation, gap recovery and who hears of it; `Instance` is the imperative code over the two dictionaries |
| `Convergence`, `OpenPages`, `Rest` | Commit, background publish, channel, listener, socket, refetch, for any number of instances and pages; exactly what a page at rest is missing; that rest can be reached |
| `Boards`, `TaskRequests`, `RoleChecks`, `Unwinding`, `Isolation`, `Answers`, `Announcements`, `Routes` | Authorization, memberships, lists and tasks under interleaved requests; that their task writes are the compare-and-swaps above; when an earlier role check still holds; what status codes reveal, alone and interleaved; what each request answers, changes and announces; the routes as imperative code |
| `RateLimit`, `Like`, `Search` | Rate limiter, LIKE escaping, username search |
| `Migration`, `Cleanup`, `Cascades` | Schema revision 7c2b1e4a9f10, the cleanup script, and that deletes under the keys the revision declares are those that requests and script rely on |
| `ClientSocket`, `Backoff` | The page's socket and the two backoffs |

How the pieces are modelled:

- **PostgreSQL.** A statement is a step on maps from id to row. An UPDATE first looks for its row in
  a snapshot, then waits for the row lock, re-checks its WHERE clause on the committed row, writes,
  and commits or rolls back later. Ids are never reused. NOT NULL, foreign key and unique
  violations fail the statement with no effect; `version` is a 4-byte integer and overflows into an
  error.
- **The event loop.** A step is the code between two awaits. `Hub.Board` holds one board's entry in
  `active_connections` and in `redis_tasks`, every listener task ever started for it and every
  endpoint coroutine. Boards do not share state on an instance.
- **Redis.** After `subscribe` returns, messages are buffered in order until the connection drops;
  on a drop any suffix of the unread ones may vanish. Publishing reaches all live subscriptions in one
  step. A key is live while now < creation + window; MULTI is atomic.
- **History variables** (`log`, `births`, `notes`, `sent`, `received`, `joined`, `dropped`, `failures`,
  `waits`, `founder`, `primed`, `failed`, `lost`) record what happened, so that it can be stated. No transition
  depends on them, apart from guards that always hold (every task has a log, every connection has a list
  of what it received) and the page, which handles the messages its socket received.
- **Imperative classes** follow the source's methods statement by statement and are proved equal to
  the corresponding step of the state machine on which the lemmas are proved.

What turned out differently from what one might expect, each as a lemma:

- The first subscription sends no `resync`, so a page whose answers were read before it can stay
  behind for good (`Convergence.FirstSubscriptionSendsNoResync`); so can its lists if one is created
  between the page's reading of them and its registration
  (`Convergence.ListsReadBeforeTheSocketCanStayBehind`). `OpenPages.AtRestExactly` says exactly what a
  page at rest is missing.
- A failed refetch is logged and not repeated, so a page whose refetch fails stays behind until the
  next event (`Convergence.FailedRefetchLeavesThePageBehind`).
- An editor demoted between check and commit still lands that one write
  (`Boards.DemotedEditorStillLandsOneWrite`); `RoleChecks.CommitIsAuthorizedIff` says exactly which
  requests committed in between make the difference.
- A user can be accepted (k + 1) * limit - 1 times in k windows (`RateLimit.BoundIsReached`).
- A winner's 200 and its event carry a version at least, not exactly, one more than the expected one
  (`Races.AWinnerCanAnnounceMore`; `Races.AnnouncesItsOwnIff` says exactly when it is one more).

## Model

| member | source | states |
|---|---|---|
| `TaskStore.ExecValid` | app/services/task_service.py:17-37 | One atomic operation keeps every live task the fold of its winning patches, with version = 1 + number of winners |
| `TaskStore.ChainGrows` | app/models/task.py:13-14 | A winner that named the current version extends the chain of versions by exactly one |
| `TaskStore.UpdatesFormOneChain` | app/services/task_service.py:8-16 | The same for every sequence of atomic operations |
| `RowLocks.CommitIsAtomic` | app/services/task_service.py:11-16 | Installing the row version written under the lock is the compare-and-swap on the row as it is committed at that moment: no lost update between lock and commit |
| `RowLocks.StepKeepsGood` | app/services/task_service.py:17-37 | Locks, written versions, the log and the transactions' outcomes agree after every step of any updater, deleter or other request |
| `RowLocks.RunKeepsGood` | app/services/task_service.py:17-37 | And hence after every schedule |
| `RowLocks.StepRefines` | app/services/task_service.py:19-35 | Each step of the row-locking database is one atomic operation answered as the transaction will report it (won, 409 or 404, error without effect), or leaves the committed rows alone |
| `RowLocks.RunRefines` | app/services/task_service.py:8-16 | Every schedule of lock, re-check, write, commit and rollback equals a run of the atomic machine |
| `RowLocks.CommittedUpdatesFormOneChain` | app/services/task_service.py:17-37 | In every schedule the committed updates of a live task are one chain: the k-th named version k, the content is the fold of their patches over what was created, each is one committed transaction and no committed transaction is missing |
| `TaskHistory.FieldsAreLastWritten` | app/services/task_service.py:17-24 | In every schedule each of title, description (null included) and list of a live task is what the last committed update that set it said, and what the task was inserted with if none set it; the version counts those updates, each opened as a request that named the version before |
| `TaskHistory.TaskWasInserted` | app/routers/tasks.py:19-22 | First content and creator of a task are those of the one step that inserted it, into a list that existed |
| `TaskHistory.TxWasOpened` | app/services/task_service.py:17-24 | Task, version and patch of every transaction are those of the request that opened it |
| `TaskHistory.LiveUntilRemoved` | app/models/task.py:8-11 | A task that was ever inserted is there exactly if since then no delete of it committed and no list was dropped with the task in it; it never comes back |
| `TaskHistory.OutcomesAreTrue` | app/services/task_service.py:26-37 | Every 200 had the named version at its commit and carries the row of the re-read; every 409 and 404 saw the row gone or with another version when the statement looked and tells what the second read found, 404 exactly if nothing; every error broke a constraint on the matching row or failed to commit |
| `TaskHistory.VersionsFit` | app/models/task.py:14 | No version leaves its 4-byte column |
| `Races.OneWinnerPerVersion` | app/services/task_service.py:14-16 | No two transactions ever commit an update from the same version of the same task |
| `Races.ExactlyOneWins` | tests/test_concurrency.py:37-83 | Of any number of writers that name the current version and all finish without error while the task lives, exactly one wins and all others get 409 with a strictly greater version |
| `Races.WinnersAnnounceAtLeastTheirOwn` | app/routers/tasks.py:39-42 | Every winner's event announces at least the version its update made |
| `Races.AnnouncedExactly` | app/services/task_service.py:36-37 | The version a winner announces is the one it named, plus one, plus the number of other updates of the task committed between its commit and its re-read |
| `Races.AnnouncesItsOwnIff` | app/services/task_service.py:36-37 | So it is exactly one more if and only if no other update of the task committed in between |
| `Races.AWinnerCanAnnounceMore` | app/routers/tasks.py:39-42 | A run in which a winner that named version 1 announces version 3 |
| `Races.ReadCheckWriteLetsEveryoneThrough` | tests/test_concurrency.py:38-42 | A read-check-write variant has, for every n, a run in which all n writers win |
| `TaskService.ScheduleInTurns` | app/services/task_service.py:17-37 | The request's statements with anything running in between are one schedule of the row-locking database |
| `TaskService.Database.ScanSnapshot` | app/services/task_service.py:19-24 | The UPDATE's search in its snapshot is the machine's scan step |
| `TaskService.Database.LockAndWrite` | app/services/task_service.py:11-16 | Re-check and write under the lock is the machine's acquire step, including the failing statements |
| `TaskService.Database.CommitUpdate` | app/services/task_service.py:36 | The commit is the machine's commit step |
| `TaskService.Database.RereadTurn` | app/services/task_service.py:26-37 | The second read decides 404, 409 or the row that is returned |
| `TaskService.Database.UpdateTaskWithConflictCheck` | app/services/task_service.py:7-37 | The whole function, with arbitrary other transactions before each of its statements, is a run of the row-locking database and returns the outcome the machine records; the update of the named version is its own, with its patch, exactly if it returns the row (or finds it deleted since) |
| `HubLifecycle.DisconnectFilters` | app/websockets/connection_manager.py:29-36 | `disconnect` removes exactly that connection, keeps the others in order and leaves no empty entry |
| `HubLifecycle.DropFailedFilters` | app/websockets/connection_manager.py:46-48 | The loop after the gather removes exactly the snapshot's failed connections, whatever left meanwhile |
| `HubLifecycle.StepChangesList` | app/websockets/connection_manager.py:23-56 | What each step does to the list of registered connections |
| `HubLifecycle.StepKeepsLifecycle` | app/routers/websocket.py:41-58 | The listener invariant holds at every await point |
| `HubLifecycle.ListenerLifecycle` | app/routers/websocket.py:43-58 | In every reachable state a board with connections has a listener entry, at most one listener is uncancelled and unfinished, and with no endpoint running neither dictionary mentions the board |
| `HubLifecycle.CancelledOnlyWhenNobodyIsRegistered` | app/routers/websocket.py:56-58 | A listener is cancelled only by an endpoint's `finally`, only the current one, and only with no registered connection left |
| `HubLifecycle.RegisteredHaveListener` | app/routers/websocket.py:43-46 | While connections are registered and the current task has not finished, it is an uncancelled listener |
| `HubLifecycle.JoinIsServed` | app/routers/websocket.py:43-46 | After any registration in any run the board's task is a live listener: a new one in its first subscribe exactly if there was no task or it had ended, otherwise the one that was there |
| `HubLifecycle.LastLeaveReleases` | app/routers/websocket.py:53-58 | Once a leaving endpoint leaves nobody registered there is no task and no live listener; while somebody is registered, both stay as they are |
| `HubDelivery.StepKeepsDelivery` | app/websockets/connection_manager.py:38-48 | Who has received what, who is being sent what and who is registered stay consistent under every step |
| `HubDelivery.HistoryIsHonest` | app/websockets/connection_manager.py:38-48 | The recorded history only grows by what a step really did: received messages by a completed send, joined and dropped once |
| `HubDelivery.SocketsReceiveContiguousSlices` | app/services/broadcast_service.py:64-66 | Every connection received a contiguous slice of the instance's broadcasts, in order, without duplicates, from its registration on; while registered it misses at most the send that is under way, after its drop at most the one it was dropped in |
| `HubBroadcasts.BroadcastsAreWhatWasTaken` | app/services/broadcast_service.py:28-40 | In every schedule the broadcasts of a listener outside resubscriptions are, in order, exactly the messages it took from its subscription, short of one still held back for the closes of a removed member's sockets, or held back when it was cancelled |
| `HubBroadcasts.NothingElseIsBroadcast` | app/services/broadcast_service.py:57-66 | The only other broadcast is the `resync` of a listener that resubscribes after a gap |
| `HubBroadcasts.RemovalIsBroadcast` | app/services/broadcast_service.py:35-40 | When the last close is over, everyone registered then is sent the `member_removed` event itself |
| `HubBroadcasts.PublishedIsTakenInOrder` | app/services/broadcast_service.py:64-66 | While a subscription stays up, what was published since it began is what was taken, followed by what still waits, in that order |
| `HubRevocation.RemovedUserHearsNothing` | app/services/broadcast_service.py:35-40 | A connection of the user registered when `member_removed` is handled receives neither that event nor anything later, whatever happens during the awaited closes |
| `HubRevocation.OthersStayInOrder` | app/websockets/connection_manager.py:50-56 | A connection leaves the list only by its own endpoint, its own failed send or the removal of its own user; all others stay in order |
| `HubRecovery.StepKeepsSound` | app/services/broadcast_service.py:50-76 | The supervised loop's flag, delay and order of messages stay right under every step |
| `HubRecovery.GapsAreRecovered` | app/services/broadcast_service.py:52-76 | In every schedule, outside the closing phases, `recovering` is set exactly when an attempt or subscription ended since the last completed resync; after a gap nothing is forwarded before a resync is noted, whose receivers `HubResync.GapEndsInResync` fixes; the delay slept after k attempts or subscriptions that ended in a row is min(30, 0.5 * 2^(k-1)) |
| `HubResync.GapEndsInResync` | app/services/broadcast_service.py:52-66 | From any resubscription after a gap on: before the listener notes anything else, it has noted the resync of exactly the connections registered when it resubscribed, and each of them that is still registered has received `resync` in its place among the broadcasts |
| `HubResync.ResyncIsHeard` | app/services/broadcast_service.py:58-61 | In every schedule, when a recovering listener's broadcast is over, the last thing each still registered connection of its snapshot received is `resync` |
| `HubResync.StepKeepsSnapshots` | app/websockets/connection_manager.py:41-48 | A broadcast's snapshot holds only connections that were registered when it began, under every step |
| `Convergence.InstanceKeepsCarrying` | app/services/broadcast_service.py:28-66 | What carries an unseen commit on an instance keeps carrying it or puts it into the socket |
| `Convergence.NextForgetsNothing` | app/services/broadcast_service.py:22-76 | No step of the database, an instance or a page forgets a commit a tracked page does not show |
| `OpenPages.UnseenIsOnItsWayOrPast` | frontend/app.js:822-838 | From any reachable state in which a listener covers a page on, whenever the page's views were read: while that listener covers it, a commit its view will not show is pending, lost at publishing, buffered, being sent, in the socket, behind a gap that ends in `resync`, or was published before that state |
| `OpenPages.AtRestExactly` | frontend/app.js:816-838 | At rest such a page's task or list view equals the database if and only if no affecting commit that it does not show was lost at publishing or published before that state |
| `OpenPages.OnlyThePastCanBeMissing` | frontend/app.js:192-200 | With no publish lost, if and only if no affecting commit it does not show was published before that state: what the code does not refetch for a freshly opened page |
| `Rest.RestIsReachable` | app/services/broadcast_service.py:42-76 | From every reachable state in which a listener covers the page, nothing of it has failed and its user is not being removed, publishes, the listener's steps, and the page's handling and answers can bring everything to rest, and the page then shows the database unless it missed something in the sense above |
| `Convergence.UnseenCommitIsOnItsWay` | frontend/app.js:822-838 | For a view answered under the current listener the last case, published before, does not occur |
| `Convergence.QuiescentPagesShowTheDatabase` | frontend/app.js:831-837 | A sufficient condition for missing nothing: the view was answered under the current listener and its newest request has not failed since; then, at rest with no publish lost, it equals the database |
| `Convergence.FailedRefetchLeavesThePageBehind` | frontend/app.js:882-897 | A concrete run shows that the condition on failed requests is needed: the code logs the failure and does not retry |
| `Convergence.FirstSubscriptionSendsNoResync` | app/services/broadcast_service.py:52-62 | A concrete run shows that the condition on the listener is needed |
| `Convergence.ListsReadBeforeTheSocketCanStayBehind` | frontend/app.js:192-200 | Lists are read before the socket is registered and not again, so a list created in between stays off the screen with everything at rest |
| `Instance.ConnectionManager.Connect` | app/websockets/connection_manager.py:23-27 | Appends to the board's list, creating it if needed; other boards untouched |
| `Instance.ConnectionManager.Disconnect` | app/websockets/connection_manager.py:29-36 | Idempotent removal, dropping an emptied entry; other boards untouched |
| `Instance.ConnectionManager.DropAfterGather` | app/websockets/connection_manager.py:46-48 | The loop over the gather's results computes the machine's drop of the failed connections |
| `Instance.ConnectionManager.ConnectionsOf` | app/websockets/connection_manager.py:52 | The revoked connections are the user's, in list order |
| `Instance.Server.Register` | app/routers/websocket.py:41-46 | Registration and check-and-create of the listener, without an await between them, are one join step |
| `Instance.Server.LeaveBoard` | app/routers/websocket.py:53-58 | The endpoint's `finally` is one leave step: it cancels the listener exactly when nobody is left |
| `Instance.Server.StartBroadcast` | app/websockets/connection_manager.py:41-45 | Takes the snapshot and starts one send per connection in it |
| `Instance.Server.FinishBroadcast` | app/websockets/connection_manager.py:46-48 | The step after the gather |
| `Instance.Server.Revoke` | app/websockets/connection_manager.py:52-56 | One iteration of `disconnect_user` up to its `close`, or on into the broadcast |
| `Instance.Server.Deliver` | app/services/broadcast_service.py:28-40 | One received message up to the first await |
| `Instance.Server.ContinueRevoking` | app/websockets/connection_manager.py:53-56 | From one awaited close to the next |
| `Instance.Server.OnSubscribed` | app/services/broadcast_service.py:57-62 | Resync if recovering, otherwise the delay is reset |
| `Instance.Server.OnClosed` | app/services/broadcast_service.py:69-75 | After a subscription ended: recovering, then the pause |
| `Instance.Server.OnWake` | app/services/broadcast_service.py:75-76 | The delay doubles up to its maximum |
| `TaskRequests.UpdateIsCompareAndSwap` | app/routers/tasks.py:39 | The UPDATE of a request does to tasks and lists what the atomic compare-and-swap does, and ends with 200, 409, 404 or 500 exactly as that answers won, stale, gone or rejected |
| `TaskRequests.RunRefines` | app/routers/tasks.py:15-55 | However requests interleave, tasks and lists are those that the atomic operations of the committed requests make |
| `TaskRequests.UpdateLandsIff` | app/services/task_service.py:19-37 | 200 exactly if the task has the named version and no constraint is broken, and then that row alone changes, to the next version; 409 exactly if it has another one, 404 exactly if it is gone, and neither changes anything |
| `TaskRequests.EveryUpdateCounts` | app/services/task_service.py:8-16 | Over any schedule of requests a task's version grows by exactly the number of updates answered with 200, and without one its row does not change |
| `TaskRequests.FieldsAreLastRequested` | app/services/task_service.py:17-24 | Every field of a live task is what the last landed update that set it said, or what it was created with; updates and creation are committed requests of the schedule |
| `Boards.GetMembership` | app/core/deps.py:48-52 | A membership row of that pair, or none exists |
| `Boards.RelianceIsStable` | app/core/deps.py:66-80 | What a request read at its checks stays true under everything other requests guarantee |
| `Boards.CommitGuarantees` | app/routers/boards.py:115-167 | Every committing statement of every request keeps the database sound and guarantees what the others rely on |
| `Boards.StepKeepsGood` | app/routers/tasks.py:15-55 | Hence any interleaving of checks and commits keeps every request's facts |
| `Boards.OneOwnerForever` | app/routers/boards.py:51-63 | In every reachable state a board has exactly one owner row and nobody is on a board twice; from then on the owner is never replaced |
| `Boards.TasksNeverChangeBoard` | app/routers/tasks.py:33-37 | However moves, deletions and creations interleave, a living task stays on its board, which exists; every task's list and every list's board exist |
| `Boards.MovedTaskStays` | app/routers/tasks.py:34-39 | The list a task moves to was checked to be on its board and still is when the UPDATE runs |
| `Boards.MemberWritesAreAuthorizedAtCommit` | app/routers/boards.py:115-163 | Whenever a commit adds, changes or removes a membership, its caller is the board's owner at that moment or is leaving the board, and the row is not the owner's |
| `Boards.BoardReadBeforeIsBoardAtCommit` | app/core/deps.py:73-80 | The board that was authorized and gets the event is the board of the list or task just before and just after the commit |
| `RoleChecks.RoleIsLastChange` | app/routers/boards.py:115-167 | Over any schedule a user's role on a board is what the last committed invitation, role change or effective removal of that user there made it |
| `RoleChecks.CheckedByRole` | app/core/deps.py:17 | A check for viewers passes every member, one for editors exactly editors and the owner, one for the owner the owner alone; 404 exactly without a membership, otherwise 403 |
| `RoleChecks.CommitIsAuthorizedIff` | app/core/deps.py:54-80 | A list or task write whose role check passed is authorized at its commit exactly if the last such commit about its caller in between, if any, left an editor or the owner; so always if there was none, and always for the owner |
| `Boards.DemotedEditorStillLandsOneWrite` | app/routers/tasks.py:46-51 | A task write has no such guarantee for the role: a run in which the demoted editor's delete still lands |
| `Unwinding.ServeAgrees` | app/core/deps.py:54-80 | From any stage of a request on, two databases that agree on the caller's boards give the same status and agree again afterwards |
| `Unwinding.StatusRevealsOnlyOwnBoards` | app/core/deps.py:54-64 | Any request of a user gets the same status from two databases that differ only in boards the user is not on, and leaves them differing only there |
| `Unwinding.NonMembersGet404` | app/core/deps.py:55-61 | A non-member gets 404 and changes nothing, whether or not the board, list or task exists |
| `Unwinding.OutsideIs404` | app/routers/tasks.py:31-37 | Also at the later checks: a move to a list on a board of others, or to none, is a 404 |
| `Isolation.OthersElsewhereDoNotShow` | app/core/deps.py:54-80 | However other users' requests are interleaved with the checks and the commit of a request of `u`, if what they commit concerns no board of `u`, the request ends with the status it would have got alone |
| `Isolation.CommitElsewhere` | app/routers/boards.py:115-167 | A commit about boards that `u` is not on leaves everything `u` can see as it was |
| `Answers.CreateBoardAnswer` | app/routers/boards.py:51-63 | A board, its owner's membership, three lists on it, and nothing else |
| `Answers.AddMemberAnswer` | app/routers/boards.py:115-129 | 404 for outsiders, 403 for all members but the owner, 409 for a member, otherwise exactly one new row with that user, board and role |
| `Answers.ChangeRoleAnswer` | app/routers/boards.py:140-152 | The owner's requests: 404 without a membership, 400 for the owner's, otherwise the pair's row gets that role |
| `Answers.RemoveMemberAnswer` | app/routers/boards.py:154-167 | The owner removes anybody else, other members only themselves (403), nobody the owner (400); the pair's row goes |
| `Answers.CreateListAnswer` | app/routers/lists.py:13-25 | 404, 403 or 200 exactly for outsiders, viewers, and editors and the owner; the list is on the board asked for |
| `Answers.DeleteListAnswer` | app/routers/lists.py:27-38 | The same; the list goes with exactly its tasks |
| `Answers.CreateTaskAnswer` | app/routers/tasks.py:15-27 | The same; the task has the content asked for, version 1 and the caller as creator |
| `Answers.DeleteTaskAnswer` | app/routers/tasks.py:46-55 | The same; that task goes |
| `Answers.UpdateTaskAnswer` | app/routers/tasks.py:29-44 | The refusals by role, by target of a move and by version, in the source's order; with 200 exactly the fields named in the request change, and the version by one; otherwise nothing |
| `Announcements.CreateTaskAnnounced` | app/routers/tasks.py:24-25 | Whatever a board's task or list view shows anew after the request is announced on that board by an event that makes pages refetch that view |
| `Announcements.UpdateTaskAnnounced` | app/routers/tasks.py:41-42 | The same for updates and moves |
| `Announcements.DeleteTaskAnnounced` | app/routers/tasks.py:53 | The same for deletions |
| `Announcements.CreateListAnnounced` | app/routers/lists.py:22-23 | The same for new lists |
| `Announcements.DeleteListAnnounced` | app/routers/lists.py:36 | The same for deleted lists, which change both views |
| `Announcements.OthersChangeNoView` | app/routers/boards.py:115-167 | Requests on members and new boards change no view of any existing board |
| `Routes.Session.GetMembership` | app/core/deps.py:48-52 | The query finds the pair's only row |
| `Routes.Session.AuthorizeBoard` | app/core/deps.py:54-64 | 404 exactly without a membership; 403 exactly for a viewer where an editor is required, and for anyone but the owner where the owner is |
| `Routes.Session.GetAuthorizedTask` | app/core/deps.py:73-80 | The task's board and the caller's standing on it |
| `Routes.Session.CreateBoard` | app/routers/boards.py:51-63 | One transaction with owner and default lists; the caller owns the new board and the database stays sound |
| `Routes.Session.AddBoardMember` | app/routers/boards.py:115-129 | Does what the request machine says, and queues `member_added` for the new user on that board exactly on success |
| `Routes.Session.GetTargetMembership` | app/routers/boards.py:131-138 | 404 without a membership, 400 for the owner's, otherwise the row |
| `Routes.Session.ChangeMemberRole` | app/routers/boards.py:140-152 | The same with `member_role_changed` |
| `Routes.Session.RemoveMember` | app/routers/boards.py:154-167 | The same with `member_removed`; 403 for a member removing somebody else |
| `Routes.Session.CreateList` | app/routers/lists.py:13-25 | The same with `list_created` |
| `Routes.Session.DeleteList` | app/routers/lists.py:27-38 | The list goes with its tasks, and the event goes to the board it was on |
| `Routes.Session.CreateTask` | app/routers/tasks.py:15-27 | The task starts at version 1 with its creator, and the event goes to its list's board |
| `Routes.Session.UpdateTask` | app/routers/tasks.py:29-44 | All refusals in the source's order; a 200 means the task had the named version and now has the next one with exactly the named fields changed, a 409 that it has another; any other status than 200 changes nothing; on success the task is on the board it was on, and that board gets the event |
| `Routes.Session.DeleteTask` | app/routers/tasks.py:46-55 | The task goes, and the event goes to the board it was on |
| `RateLimit.AcceptedFromWindow` | app/core/rate_limit.py:20-35 | From inside a window, at most what is left in it and `limit` per further window |
| `RateLimit.AcceptedPerInterval` | app/core/rate_limit.py:8-13 | At most (k + 1) * limit - 1 acceptances in any half-open interval of k windows |
| `RateLimit.BoundIsReached` | app/core/rate_limit.py:20-35 | For every limit, window and k a trace reaches that bound |
| `RateLimit.WindowOf` | app/core/rate_limit.py:23-29 | Every call lies in a window opened by some call, is counted in it, and the window's end depends on nothing but its opening |
| `RateLimit.RefusedOnlyWhenFull` | app/core/rate_limit.py:31-35 | Exactly the first `limit` calls of a window are accepted, so a refusal means `limit` acceptances in the current window |
| `RateLimit.UsersAreIndependent` | app/core/rate_limit.py:9-12 | A user's outcomes in a scope are those of the user's own calls in that scope alone |
| `RateLimit.UserAcceptedPerInterval` | app/core/rate_limit.py:20-35 | The bound for one user and scope within any trace of everybody's calls |
| `RateLimit.Redis.CountRequest` | app/core/rate_limit.py:26-29 | SET NX EX and INCR create or advance exactly one counter, and never an expiry of a live one |
| `RateLimit.RateLimiter.Check` | app/core/rate_limit.py:20-35 | One call is accepted as the trace semantics says and touches only the user's own counter |
| `Like.ThreePassesAreOne` | app/routers/users.py:21-23 | Three global replacements in that order equal one character-wise escaping |
| `Like.UnescapeUndoesEscape` | app/routers/users.py:21-23 | Removing the escapes gives the value back |
| `Like.EscapeIsInjective` | app/routers/users.py:21-23 | Different values never escape to the same pattern |
| `Like.SearchPatternMatchesPrefix` | app/routers/users.py:71 | The pattern is well formed and matches exactly the strings that start with the query, with any wildcards and backslashes in either |
| `Search.SharedBoardsAreTheIntersection` | app/routers/users.py:26-47 | Join and grouping give exactly the boards both are on, each once, sorted by name; their number is the intersection's size and symmetric |
| `Search.RankedIsRanked` | app/routers/users.py:67-86 | Every matching user appears exactly with the outer join's row, in a strict order |
| `Search.SearchReturnsTheBestMatches` | app/routers/users.py:64-87 | Only users whose name, folded by the database, starts with the query, folded in Python; at most 8, with more shared boards first and then by name; every wanted user left out ranks strictly after every one returned |
| `Migration.DeduplicationKeepsTheOldest` | alembic/versions/7c2b1e4a9f10_constraints_cascades_and_creator.py:55-62 | For every (board, user) exactly the lowest-id row survives, unchanged |
| `Migration.DeduplicateIsUnique` | alembic/versions/7c2b1e4a9f10_constraints_cascades_and_creator.py:55-63 | So duplicates never stop the unique constraint |
| `Migration.UpgradeSucceedsIff` | alembic/versions/7c2b1e4a9f10_constraints_cascades_and_creator.py:46-70 | Upgrade succeeds exactly when every table referred to has a unique `id`, no reference dangles on the five columns, no other constraint of the table bears a foreign key's name, no constraint of the table and no relation (table, sequence, view, index) bears the unique constraint's name, and the title index is no other kind of relation |
| `Migration.UpgradeReachesOneSchema` | alembic/versions/7c2b1e4a9f10_constraints_cascades_and_creator.py:7-10 | From every drifted initial schema nothing blocks, upgrade reaches one and the same schema |
| `Migration.DowngradeRestoresInitialSchema` | alembic/versions/7c2b1e4a9f10_constraints_cascades_and_creator.py:73-86 | Downgrade after upgrade gives the initial schema |
| `Migration.Database.DropForeignKeysOn` | alembic/versions/7c2b1e4a9f10_constraints_cascades_and_creator.py:35-38 | The loop drops exactly the keys on that one column |
| `Migration.Database.RecreateForeignKey` | alembic/versions/7c2b1e4a9f10_constraints_cascades_and_creator.py:41-43 | Drop and create one key, or fail |
| `Migration.Database.Upgrade` | alembic/versions/7c2b1e4a9f10_constraints_cascades_and_creator.py:46-70 | The statements in their order reach the schema the lemmas speak of; on failure nothing changed |
| `Migration.Database.Downgrade` | alembic/versions/7c2b1e4a9f10_constraints_cascades_and_creator.py:73-86 | Likewise for the way back |
| `Cleanup.BottomUpIsCascade` | cleanup.py:17-44 | The script's deletions reach the same database as deleting the owned boards and the user under the declared CASCADE and SET NULL |
| `Cleanup.CascadesAreNeverNeeded` | cleanup.py:29-43 | No deletion of lists, boards or the user meets a row that still refers to what goes |
| `Cleanup.CleanupIsClean` | cleanup.py:17-44 | Integrity, unique memberships and one owner per surviving board hold afterwards; exactly the user, the owned boards and their lists, tasks and memberships, and the user's other memberships are gone; all other users and rows are as they were but for the user as a task's creator |
| `Cleanup.Store.CleanUserData` | cleanup.py:8-52 | The whole script: all of it, or, when the user is unknown or any of its deletes or its commit raises midway, nothing |
| `Cascades.DropListIsDeclared` | app/models/task.py:11 | Deleting a list under the keys of an upgraded database (the least set closed under CASCADE goes, SET NULL clears) is what the delete-list request does |
| `Cascades.CascadeBoardsIsDeclared` | app/models/list_.py:10 | The same for boards with their lists, tasks and memberships |
| `Cascades.CascadeUserIsDeclared` | app/models/task.py:16-17 | The same for a user: memberships go, tasks stay without a creator |
| `Cascades.CleanupIsDeclared` | cleanup.py:17-44 | From every drifted schema nothing blocks, the script's bottom-up deletions reach what deleting the owned boards and the user reaches under the upgraded schema's keys |
| `Cascades.UpgradeMakesMembershipsUnique` | alembic/versions/7c2b1e4a9f10_constraints_cascades_and_creator.py:55-63 | After an upgrade memberships are unique as the requests rely on |
| `Cascades.CascadesAreIndexed` | alembic/versions/7c2b1e4a9f10_constraints_cascades_and_creator.py:63-67 | In the upgraded schema every cascading key's column leads some index |
| `Cascades.PlainKeysStopDeletes` | alembic/versions/7c2b1e4a9f10_constraints_cascades_and_creator.py:25-32 | Under the initial keys a list with a task in it cannot be deleted |
| `Backoff.DoublingIsClosedForm` | app/services/broadcast_service.py:75-76 | Doubling under a cap k times, from an initial delay within it, is min(cap, initial * 2^k) |
| `ClientSocket.CloseOfRetiredSocketDoesNothing` | frontend/app.js:840-842 | Whatever happens after a socket was replaced or let go on purpose (switching, leaving or running out of boards, logging out), its close changes nothing |
| `ClientSocket.DropSchedulesOneReconnect` | frontend/app.js:843-854 | A dropped current socket leads to exactly one pending reconnect and leaves login and board alone; 4401 logs out and 4403 keeps the login, neither with a reconnect |
| `ClientSocket.OpenRefetchesAfterDrop` | frontend/app.js:816-820 | In every run a socket that opens makes the page refetch exactly if a drop has not been made up for since |
| `ClientSocket.SocketNeedsLoginAndBoard` | frontend/app.js:807-814 | In every run a socket exists only while logged in and on a board |
| `ClientSocket.WaitsAreBackedOff` | frontend/app.js:858-863 | In every run each wait lies between half of min(30 s, 1 s * 2^attempts) and all of it; never a socket together with a pending reconnect, never two pending reconnects |
| `ClientSocket.Client.ConnectSocket` | frontend/app.js:807-814 | Clears the timer and opens a socket unless logged out or without a board |
| `ClientSocket.Client.DisconnectSocket` | frontend/app.js:865-873 | Lets go of socket, timer and attempts |
| `ClientSocket.Client.ShowNoBoards` | frontend/app.js:169-176 | Without boards left the page lets go of its socket and keeps its login |
| `ClientSocket.Client.StopForLeaving` | frontend/app.js:508-510 | Leaving a board lets go of the socket before the request, so the revocation's close schedules nothing |
| `ClientSocket.Client.ScheduleNext` | frontend/app.js:858-863 | One more attempt, one timer with the jittered wait |
| `ClientSocket.Client.OnOpen` | frontend/app.js:816-820 | Refetches after a drop and resets the attempts |
| `ClientSocket.Client.OnCloseEvent` | frontend/app.js:840-855 | Dispatch on the close code, ignoring sockets already replaced |

## Left out

- FastAPI routing, Pydantic parsing, SQLAlchemy sessions and SQL text: statements are steps on maps.
- JWT, passwords, login, signup, e-mail, configuration and health checks: a request comes with its user id.
- Redis, PostgreSQL and browser internals beyond what the introduction lists; JSON is a message's kind, or garbled.
- Board cache and the listing routes: easy members that would add nothing.
- Socket authorization happens before registration with awaits in between (app/routers/websocket.py:33-41); the hub starts at registration, so a user removed in that window is not covered.
- Role and member count in the page: `resync` does not refetch them (frontend/app.js:831-833), so only the task and list views converge.
- The page's responses are applied in the order of the requests, since `loadTasks` has no guard against late ones.
- A listener that crashed is replaced at the next registration without a `resync`; tracked pages are those whose view was answered under the current listener and whose newest request has not failed since that answer.
- `Convergence` speaks of one board; pages on other boards, board switches in mid-request and the refetch after the page's own reconnect are covered by `Open` and `Ask` moves with arbitrary earlier content.
- What happens in a route after its commit (`db.refresh`, lazy loads) and can turn a committed request into a 500 without an event, if the row is deleted in between; `RowLocks` models this for updates (`Vanished`).
- The interleaving model takes each SELECT as one step and each commit as atomic; a list deletion waits in `RowLocks` until no lock on its tasks is held and is then one step.
- User deletion and the cleanup script are not interleaved with requests; `clean_user_data` is a single transaction.
- Detail texts of refusals differ ("List not found", "Board not found"), so `Unwinding` is about status codes and stored rows, not about texts or timing.
- Lower-casing (Python's and the database's), stripping and collation are parameters of `Search`; the authorization of a search scoped to a board is `Boards.AuthorizeBoard` and not repeated there.
- The index revision b41e8d2c7a53 and everything in the initial revision that revision 7c2b1e4a9f10 does not touch.
- Rendering: a task card needs its list's column on the page; a reload of lists fetches the tasks too and draws both at once, the model keeps the two views apart.
- User interface: DOM, modals, drag and drop, autocomplete, alerts.
- Routes.Session.UpdateTask: runs alone; that its statement is the atomic compare-and-swap is `TaskRequests.UpdateIsCompareAndSwap`, that the UPDATE with its lock refines that is `RowLocks.RunRefines`.
- Routes.Session.CreateTask: the rate limiter that runs before it is `RateLimit.RateLimiter.Check`.
- OpenPages.AtRestExactly: about views whose newest request has not failed; a failed one is not repeated (`Convergence.FailedRefetchLeavesThePageBehind`), and then the view shows what was answered last.
- Announcements.UpdateTaskAnnounced: takes the queued event as the contracts of `Routes.Session` give it.
- Cascades.DropListIsDeclared: rows are those of the tables the model has; constraint checks are at the end of the statement.
- Isolation.OthersElsewhereDoNotShow: no sign-up in between, since a new user changes what an invitation by that name is answered.
- Rest.RestIsReachable: a schedule exists; fairness of the event loop, Redis and the network, which would make it happen, is not modelled.
- Cleanup.Store.CleanUserData: printed progress is left out, and which statement raises is a parameter.
- Boards.Check: a session that has loaded a membership keeps its role, so the second role check of a task move (app/routers/tasks.py:35) would let a user pass who was demoted between the two, where the model answers 403.
- Migration.UpgradeSucceedsIff: that the tables of the initial revision exist, and their columns' types, are taken as given; a `creator_id` of another type would make its foreign key fail.
