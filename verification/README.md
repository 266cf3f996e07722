# Verification of the agent runtime

Clyde runs coding agents for its users: a task is driven by a chat session around an
SDK client, tools may need a human approval, CI failures start fixes, and a memory
graph records what was done. This project models the parts of that runtime whose
correctness depends on interleavings, crashes, string formats or joins, and proves
what they are for. Verify it with `dafny verify dfyconfig.toml`.

| file | what it models |
|---|---|
| `ApprovalGate.dfy` | the permission hook, the Redis gate and the WebSocket handler that answers |
| `ChatSession.dfy`, `SessionRuns.dfy` | the two clocks, the turn loop with its status writes, the language of those statuses, and what all runs have in common |
| `InputQueue.dfy`, `Broadcaster.dfy`, `Registry.dfy` | the input queue, the event fan-out, the session registry |
| `AwsProxy.dfy` | the locked session recovery of the AWS MCP proxy |
| `SessionStore.dfy` | JSON lines and the transcript store in S3 |
| `CiFix.dfy`, `Resume.dfy` | the CI fix loop; the SDK session id across crashes |
| `PasswordProvider.dfy` | the password cache and the one retry that relies on it |
| `MemoryGraph.dfy`, `MemoryRetrieval.dfy`, `Rrf.dfy` | the memory graph, its queries, the merge of the search legs |

Code that one coroutine runs from start to end is a class or a method with loops.
Code in which several coroutines or processes meet is a state machine: one step is
one database transaction, one Redis command, or the Python between two awaits; a
schedule is any sequence of steps, and a step that is not enabled changes nothing.
Properties "after any schedule" therefore hold in every reachable state.

## Assumptions

- A database transaction and a Redis command are each atomic.
- `uuid4` values, and the session ids with which AWS answers an initialize, are fresh.
- The clock never goes back. Times and scores are exact reals.
- `json.loads` inverts `json.dumps`, and what `dumps` prints for an object is printable
  ASCII between braces (string escapes as in section 7 of RFC 8259, `ensure_ascii` on).
- A BLPOP starts at the moment the remaining budget was read.
- The only close reason ever requested is `USER_CLOSED`, as in all callers.
- A SUBSCRIBE has taken effect when `subscribe` returns.
- An entry of the input queue is what `push` stores or something that does not parse;
  results that need the former say so.
- The commits of a session's statuses succeed; the broadcasts after them may raise.
- The unique index on entity identity (migration 0022) makes a second INSERT of an
  entity raise; `upsert_entity` swallows that like any other failure.

## Where the code does less than one might expect

- A session can write AWAITING_USER_MESSAGE right before COMPLETED: exactly when the
  check that ends it follows a round that took no user message, rather than a turn
  (`SessionRuns.WaitBeforeCompleted`; `SessionRuns.ClosedWhileWaiting` is such a run).
  COMPLETED is followed by FAILED exactly when the broadcast after the committed
  COMPLETED raises, because the `except` of `run` catches it (`SessionRuns.RunAccepted`;
  `SessionRuns.CompletedThenOverwritten` is such a run).
- A message can be taken and not stored, and a turn run and not counted: at most the
  last of each, and only where something raises (`ChatSession.MessagesStoredOnce`).
- A fix broadcasts its outcome after it has recorded it, inside the same `try`. When
  that broadcast raises only after a later fix has recorded its own outcome, FAILED is
  written with the older attempt: the attempt falls, exactly then
  (`CiFix.AttemptDropsExactlyWhenLate`), and one more fix than allowed gets through
  (`CiFix.LateFailureBreaksTheBound`).
- The bound on CI fixes also needs the worker that receives the webhook to see the live
  session: `CiFix.SecondFixExactlyWhenUnseen` is the exact condition for a second fix,
  `CiFix.UnseenSessionBreaksTheBound` a run with two workers that meets it.
- The first turn is sent at most once, not exactly once: a crash between the commit
  of the session id and the first turn loses the description. An unsent id is lost
  exactly when no execution that is still to send works under it
  (`Resume.LostExactlyWhenNobodySends`).
- A handler that dies between its transaction and its PUBLISH leaves the hook asleep:
  nothing but a timeout ends that wait (`ApprovalGate.StrandedWithoutPublish`), and the
  pipeline's hook sets none.
- With parallel tool calls AWAITING_APPROVAL disappears while somebody still waits:
  exactly when a hook restores RUNNING before another one has
  (`ApprovalGate.StatusStopsShowingExactly`, `ApprovalGate.HiddenWait`).
- Two calls that name the same new entity at once can lose a link although no
  transaction fails by itself: exactly when one is overtaken between its SELECT and its
  INSERT (`MemoryGraph.LostExactlyWhenOvertaken`, `MemoryGraph.RaceHappens`).
- The cap of the input queue holds for one pusher only; with P pushers the depth can
  reach 199 + P (`InputQueue.BoundIsReached`).
- Every project key or session id with a slash in it makes two sessions share an
  object (`SessionStore.SlashesCollide`), and an empty subpath reads and writes the main
  transcript while deleting it spares the subagents
  (`SessionStore.EmptySubpathDeletesOnlyMain`).
- Edge weights of the memory graph never exceed 1: the `ON CONFLICT` of an edge
  insert is never reached, since every call has its own action node
  (`MemoryRetrieval.EdgesAreLayered`).
- The order of the merged ids decides only which tasks a recall shows: the query for
  their properties sorts them by creation time again, and the vector leg is always empty.

## Model

| member | source | states |
|---|---|---|
| ApprovalGate.NoLostWakeup | src/agent_tools/permission_gate.py:64-151 | After any schedule, a hook asleep on an empty channel is waiting for somebody: either nobody has answered, or the one answering handler has not published its wake message yet. |
| ApprovalGate.OnlyTimeoutsRaise | src/agent_tools/permission_gate.py:106-151 | The errors "not registered" and "wake fired but no decision" cannot occur; only the timeout ends a wait without a decision. |
| ApprovalGate.VerdictMatchesRow | src/agents/sdk_agent.py:621-709 | A gated call is allowed exactly when its row says APPROVED; a denial carries the reason built from the payload stored in the row. |
| ApprovalGate.VerdictIsTheAnswer | src/api/websocket/task_stream_view.py:221-266 | The verdict is the decision of the single handler whose transaction found the row pending. |
| ApprovalGate.DenialCarriesTheText | src/agents/sdk_agent.py:699-709 | After any schedule the row records the decision and its payload, and the agent is told to go on exactly when it approves; a denial shows the user's text, cut to 500 characters, or the default sentence when there is none. |
| ApprovalGate.FirstAnswerWins | src/api/websocket/task_stream_view.py:236-251 | A handler goes on exactly when it finds the row pending, and writes the decision into it; otherwise it is refused as missing or as already answered, and changes nothing. |
| ApprovalGate.AnswerGetsThrough | src/api/websocket/task_stream_view.py:236-266 | Wherever the hook stands, as long as its row is pending and its wait has not timed out: one handler and twelve steps of the hook bring the agent the user's decision, with the task shown as RUNNING again. |
| ApprovalGate.NothingIsLeftBehind | src/agent_tools/permission_gate.py:130-163 | A hook that has returned has left no decision key, no subscription and no registration. |
| ApprovalGate.TimeoutRaises | src/agent_tools/permission_gate.py:130-151 | A wait that times out raises, closes its subscription, and leaves row and key as they are. |
| ApprovalGate.WaitLooksInOrder | src/agent_tools/permission_gate.py:106-151 | A wait looks for its registration, then for its decision, then for a wake-up of which it takes one, and raises the matching error where something is missing. |
| ApprovalGate.AnsweredRowIsFinal | src/api/websocket/task_stream_view.py:236-251 | A row leaves PENDING at most once, whatever follows. |
| ApprovalGate.AnsweredHookReturns | src/agent_tools/permission_gate.py:106-163 | Once the handler has published, at most twelve steps of the hook alone lead to the user's verdict, unless the wait had already timed out. |
| ApprovalGate.StrandedWithoutPublish | src/agent_tools/permission_gate.py:76-103 | If the handler never reaches its PUBLISH, no other activity wakes a sleeping hook before its timeout. |
| ApprovalGate.StatusShowsTheWait | src/agents/sdk_agent.py:646-689 | AWAITING_APPROVAL always means that some hook waits or timed out; when tool calls are made one at a time it holds exactly then. |
| ApprovalGate.StatusStopsShowingExactly | src/agents/sdk_agent.py:646-689 | With any number of parallel hooks, a step makes status and waits disagree exactly when a hook restores RUNNING while another approval still waits. |
| ApprovalGate.ShownUntilHidden | src/agents/sdk_agent.py:646-689 | Over a whole run, however many hooks overlap, status and waits agree as long as no such step happens. |
| ApprovalGate.HiddenWait | src/agents/sdk_agent.py:646-689 | A run of two hooks after which one returns and the other waits under RUNNING. |
| ApprovalGate.PermissionGate.Register | src/agent_tools/permission_gate.py:64-73 | Subscribing and entering the approval are two steps of the hook, and touch no other approval. |
| ApprovalGate.PermissionGate.Resolve | src/agent_tools/permission_gate.py:76-103 | Storing and publishing are two steps of the handler; it reports whether somebody was subscribed. |
| ApprovalGate.PermissionGate.WaitForDecision | src/agent_tools/permission_gate.py:106-151 | Returns the decision stored before or during the wait, consumes the registration, closes the subscription on every way out, and otherwise fails with the matching error. |
| ApprovalGate.StepKeepsInv | src/agent_tools/permission_gate.py:64-163 | Every step of hooks and handlers keeps row, decision key, channel, pending entry and program counters consistent. |
| AwsProxy.RenewedAtMostOnce | src/services/aws_mcp_proxy_service.py:234-296 | Each stale session id is replaced by at most one successful re-initialise, for any number of concurrent requests. |
| AwsProxy.LaterVictimReuses | src/services/aws_mcp_proxy_service.py:244-251 | A victim of an already replaced session takes the lock, leaves the store alone and retries with the stored id, which is not the one that failed. |
| AwsProxy.OneRenewsTheOtherReuses | src/services/aws_mcp_proxy_service.py:133-296 | A run in which two requests fail with one session: the first renews it in three calls, the second reuses what is stored in two. |
| AwsProxy.RenewedKeyKeepsSession | src/services/aws_mcp_proxy_service.py:294-296 | A key whose session was ever replaced always has a session stored. |
| AwsProxy.RejectedSessionIsRenewed | src/services/aws_mcp_proxy_service.py:196-296 | With the lock free, a request whose stored session is rejected replays the stored initialize and, when that opens a session, retries with the fresh id, which is then stored with the same payload. |
| AwsProxy.StoredExactlyWhenOpened | src/services/aws_mcp_proxy_service.py:190-296 | An answer changes the stored session exactly when it opens one for an initialize, the client's own or a replayed one, and then stores that id with the body that was sent. |
| AwsProxy.RequestsCarryTheStoredSession | src/services/aws_mcp_proxy_service.py:161-180 | An initialize is forwarded without a session id, any other request with the stored one, or else the client's. |
| AwsProxy.FailedRenewalKeepsTheSession | src/services/aws_mcp_proxy_service.py:275-292 | A replayed initialize that fails leaves the session, frees the lock and ends the request without a retry. |
| AwsProxy.NothingToRenew | src/services/aws_mcp_proxy_service.py:196-270 | A request goes for the lock exactly when it is answered with a session error and is no initialize; without a stored session it then gives up. |
| AwsProxy.RetriesAreBounded | src/services/aws_mcp_proxy_service.py:172-223 | No request is retried with the id that just failed it, and none makes more than three upstream calls. |
| AwsProxy.LockHolderReinitializes | src/services/aws_mcp_proxy_service.py:244-260 | A lock is held exactly by the request that awaits the answer to its re-initialise of that key; it is never leaked. |
| AwsProxy.ReplayedPayloadIsAuthentic | src/services/aws_mcp_proxy_service.py:190-194 | The payload a re-initialise replays is a body some client sent to initialize that same key. |
| AwsProxy.AwsMcpProxy.HandleSessionError | src/services/aws_mcp_proxy_service.py:234-296 | Reuses a stored session that is not the failed one, otherwise replaces it when the replayed initialize succeeds, keeping the payload; else leaves everything. |
| AwsProxy.AwsMcpProxy.HandleProxyRequest | src/services/aws_mcp_proxy_service.py:133-231 | A request that meets nobody else: a session error of a stored session is met by a replayed initialize whose session is stored with the same payload and used for the retry; an initialize answered below 400 with an id stores that id and its own body; nothing else touches the store, and no other key is touched. |
| AwsProxy.SessionKeyInjective | src/services/aws_mcp_proxy_service.py:72-73 | Two callers share a session exactly when access key and region agree, for access keys without a colon. |
| JsonLines.RoundTrip | src/agents/chat/s3_session_store.py:142-169 | Parsing the printed body of any list of entries, through `splitlines` and `strip`, returns that list. |
| JsonLines.ReadJsonl | src/agents/chat/s3_session_store.py:146-159 | The reading loop returns the parsed entry of every line that is neither blank nor malformed, in order. |
| JsonLines.BadLinesAreSkipped | src/agents/chat/s3_session_store.py:146-159 | A blank or malformed line between others loses nothing but itself. |
| JsonLines.CrLfRoundTrip | src/agents/chat/s3_session_store.py:142-159 | A transcript whose lines end in a carriage return and a newline reads the same. |
| JsonLines.LineBreaksAndSpaces | src/agents/chat/s3_session_store.py:146-159 | The code points at which lines are split and which are stripped. |
| SessionStore.ObjectKeyInjective | src/agents/chat/s3_session_store.py:127-134 | Two session keys name the same object exactly when they name the same log, for slash-free project keys and session ids. |
| SessionStore.PrefixCoversSession | src/agents/chat/s3_session_store.py:136-140 | An object lies under a session's prefix exactly when it is a subagent transcript of that very session. |
| SessionStore.SlashesCollide | src/agents/chat/s3_session_store.py:127-134 | Slash-free parts are necessary: every key with a slash in its project or session shares its object with the key of a different log. |
| SessionStore.NamesInTheBucket | src/agents/chat/s3_session_store.py:127-134 | A main transcript is `prefix/project/session.jsonl`, a subagent transcript lies below it under its subpath. |
| SessionStore.StripsOnlySlashes | src/agents/chat/s3_session_store.py:55-72 | The configured prefix loses the slashes at both ends and nothing else. |
| SessionStore.S3SessionStore.Append | src/agents/chat/s3_session_store.py:74-93 | Reads, extends and rewrites the one object of the key, and touches no object for an empty batch. |
| SessionStore.S3SessionStore.Load | src/agents/chat/s3_session_store.py:95-103 | Returns the entries of the object, and None both when it is missing and when it holds none. |
| SessionStore.S3SessionStore.Delete | src/agents/chat/s3_session_store.py:105-125 | Removes the object of the key and, for a main transcript, everything under the session's prefix, and nothing else. |
| SessionStore.S3SessionStore.DeletePrefix | src/agents/chat/s3_session_store.py:194-208 | After the sweep over all pages exactly the objects under the prefix are gone. |
| SessionStore.RunHoldsHistory | src/agents/chat/s3_session_store.py:74-169 | After any run of appends and deletes, the object of a key is the printed log of that key, and absent when the log is empty. |
| SessionStore.LoadReturnsHistory | src/agents/chat/s3_session_store.py:74-125 | A load returns the concatenation of the batches appended to that very log since it was last deleted, or None. |
| SessionStore.DeleteIsCompleteAndIsolated | src/agents/chat/s3_session_store.py:105-125 | Deleting a main transcript makes every log of its session load as None and leaves every other session's objects alone, also when one id extends the other. |
| SessionStore.EmptySubpathDeletesOnlyMain | src/agents/chat/s3_session_store.py:118-134 | Deleting with an empty subpath removes the main transcript and spares the subagents. |
| InputQueue.TaskInputQueue.Push | src/utils/task_input_queue.py:43-57 | Appends at the end and reports success exactly when fewer than 200 items were queued. |
| InputQueue.DepthBound | src/utils/task_input_queue.py:43-57 | With P concurrent pushers, depth plus pushers past the check never exceeds 199 + P, and what was popped plus what is queued is what was accepted, in order. |
| InputQueue.BoundIsReached | src/utils/task_input_queue.py:49-57 | For every number of pushers P some schedule reaches depth 199 + P. |
| InputQueue.PassedCheckAppends | src/utils/task_input_queue.py:43-57 | A pusher passes the check exactly below 200 items, and then appends its own message at the end. |
| InputQueue.Drains | src/utils/task_input_queue.py:59-84 | Pops take the items one after the other, in order. |
| Lifecycle.Lifecycle.RemainingSec | src/agents/chat/lifecycle.py:41-50 | The time left to the earlier of the idle and the hard deadline, and 0 from that moment on. |
| Lifecycle.Lifecycle.Expired | src/agents/chat/lifecycle.py:52-60 | Reports an expiry exactly when nothing remains, and the hard one exactly when the hard clock has run out. |
| Lifecycle.TimeoutOvershoot | src/utils/task_input_queue.py:59-84 | The BLPOP timeout for a positive budget is at least 1 and exceeds the budget by less than a second. |
| Lifecycle.RoundIsNearest | src/utils/task_input_queue.py:59-84 | The rounded budget is a nearest integer, and the even one of two. |
| StatusLanguage.CompletedWords | src/agents/chat/session.py:147-285 | The automaton of status writes ends in its completed state exactly on the words of the grammar of turns, approvals, publishing and waits, followed by COMPLETED. |
| StatusLanguage.FailedWords | src/agents/chat/session.py:147-285 | And in its failed state exactly on such words cut short, followed by FAILED. |
| SessionRuns.RunAccepted | src/agents/chat/session.py:147-285 | Whatever raises, the statuses of a session lead to FAILED after what raised, to COMPLETED after an orderly end, and to COMPLETED then FAILED exactly when the broadcast after the committed COMPLETED raises. |
| SessionRuns.CompletesForAReason | src/agents/chat/session.py:167-195 | A session completes exactly when its run returns a reason other than ERROR; that is USER_CLOSED when it was asked to close, else HARD_TIMEOUT when the hard clock has run out, else IDLE_TIMEOUT. |
| SessionRuns.RoundEndsExactly | src/agents/chat/session.py:167-190 | A round ends the loop exactly when a close request is there or a clock has run out, and raises exactly when what it reaches raises: the announcement, the wait if there is budget, the turn if a message came. |
| SessionRuns.CompletedSessions | src/agents/chat/session.py:147-285 | When `push` alone fills the queue, every completing session writes a word of the grammar without three waits in a row, followed by COMPLETED, and each such word is written by some run if the clocks leave the time for its double waits; with entries that do not parse besides, these are all words of the grammar. |
| SessionRuns.ChatLanguage | src/agents/chat/session.py:147-285 | Over all clocks, the statuses of completing sessions that `push` alone feeds are exactly the words of the grammar without three waits in a row, followed by COMPLETED. |
| SessionRuns.FailedSessions | src/agents/chat/session.py:147-285 | The same for failing sessions: such words cut short, at most inside an approval, followed by FAILED. |
| SessionRuns.WaitBeforeCompleted | src/agents/chat/session.py:167-195 | A completing session writes a wait right before COMPLETED exactly when the check that ends it comes after a round that took no user message. |
| SessionRuns.ClosedWhileWaiting | src/agents/chat/session.py:167-195 | A run to which nobody ever writes, and which writes RUNNING, AWAITING_USER_MESSAGE, COMPLETED. |
| SessionRuns.CompletedThenOverwritten | src/agents/chat/session.py:192-197 | A run that writes RUNNING, COMPLETED, FAILED. |
| SessionRuns.NeverSpins | src/agents/chat/session.py:167-190 | As long as queue entries are what `push` stores, no session announces its wait three times without a turn in between. |
| SessionRuns.SmoothRunsComplete | src/agents/chat/session.py:147-197 | A session in which nothing raises completes or still runs. |
| SessionRuns.ClosedSessionsEnd | src/agents/chat/session.py:137-192 | A loop that goes on was never asked to close, and one that ends gives that reason exactly when it was. |
| ChatSession.SDKChatSession.RunOneTurn | src/agents/chat/session.py:199-259 | Succeeds exactly when nothing in the turn raises; statuses written, message stored and turn counted are those of the script up to where it breaks off. |
| ChatSession.TurnCounts | src/agents/chat/session.py:199-259 | Once begun, a turn writes RUNNING, one approval round trip for each answered tool call, one more approval for a pending one, and PUBLISHING when nothing raised before it. |
| ChatSession.SDKChatSession.End | src/agents/chat/session.py:261-285 | Commits exactly one final status, FAILED for an error and COMPLETED otherwise, and none when the close event cannot be broadcast. |
| ChatSession.SDKChatSession.WaitForMessage | src/utils/task_input_queue.py:59-84 | Takes the head of the queue if there is one in time, and records how long after the deadline of the session, always less than a second; an empty wait lasts the whole timeout. |
| ChatSession.SDKChatSession.OneRound | src/agents/chat/session.py:167-190 | Close request, clocks, wait, budget and turn in the order of the source: statuses, course, loop state and what became of each message are those of the round's trace. |
| ChatSession.SDKChatSession.Run | src/agents/chat/session.py:147-197 | A connected session writes exactly the statuses its script decides and returns accordingly, unless the teardown raises; the items that came, those taken, how late each was, the messages stored and the turns counted are the script's, so that what was taken and what is left are what was queued and what came; and the reason returned is USER_CLOSED, HARD_TIMEOUT or IDLE_TIMEOUT exactly as the close request and the clocks left behind say. |
| ChatSession.MessagesInOrder | src/agents/chat/session.py:167-190 | Whatever the script, what was taken followed by what is left is what was queued followed by what was pushed. |
| ChatSession.NoneIsLate | src/utils/task_input_queue.py:59-84 | Every item taken by a session was taken less than a second after the deadline of its wait. |
| ChatSession.MessagesStoredOnce | src/agents/chat/session.py:199-259 | Every message taken is stored exactly once, in order, and has exactly one turn, unless something raises in the loop: then at most the last one is not stored, and at most the last turn not counted. |
| Registry.OneRegisteredRunPerTask | src/services/chat_session_service.py:34-64 | Both dictionaries always name the same tasks, each task has at most one run, and every run is the registered one. |
| Registry.RegistersExactlyWhenIdle | src/services/chat_session_service.py:34-53 | Whatever happened before, a task is taken exactly when no run of it exists, and is then entered with its session and its run. |
| Registry.RunLeavesNoTrace | src/services/chat_session_service.py:45-64 | A run that is started and finishes leaves the registry exactly as it was. |
| Registry.CloseReachesTheLiveRun | src/services/chat_session_service.py:75-84 | A close request reaches the session of the task's live run and no other. |
| Registry.ShutdownReachesAll | src/services/chat_session_service.py:86-97 | A shutdown asks exactly the sessions of all existing runs to close. |
| Registry.ChatSessionService.RegisterAndRun | src/services/chat_session_service.py:34-53 | Refuses exactly the tasks that already have a run; otherwise enters session and run together. |
| Registry.ChatSessionService.Unregister | src/services/chat_session_service.py:58-61 | Removes the finished run's task from both dictionaries and nothing else. |
| Registry.ChatSessionService.ShutdownAll | src/services/chat_session_service.py:86-97 | The loop asks every registered session to close. |
| Broadcaster.Pump | src/utils/broadcaster.py:60-83 | Turns the buffered messages into events in order, drops what does not parse, and stops after the end marker with one None. |
| Broadcaster.DeliveredIsEncoded | src/utils/broadcaster.py:106-113 | Decoding undoes encoding, and no event prints as the end marker. |
| Broadcaster.OrderedFanOut | src/utils/broadcaster.py:45-113 | At every moment, what a subscriber was delivered plus what its pump will make of its buffer is the stream since it subscribed, up to the first end marker. |
| Broadcaster.PublishReachesTheConnected | src/utils/broadcaster.py:45-113 | What is published is the next of the stream, and reaches exactly the connections that are up. |
| Broadcaster.ClientSeesAPrefix | src/api/websocket/task_stream_view.py:127-142 | A client sees a gapless prefix of the events published since it connected, and none after an end marker. |
| Broadcaster.EverythingGetsThrough | src/api/websocket/task_stream_view.py:127-142 | After any schedule, the pump and the WebSocket loop of an open subscription, left alone, bring the client exactly the events published since it connected, up to the first end marker. |
| Broadcaster.UnsubscribedGetsNothing | src/utils/broadcaster.py:45-83 | After it has unsubscribed nothing more is queued or buffered for a subscriber. |
| PasswordProvider.SecretsManagerPasswordProvider.Call | src/db/password_provider.py:52-71 | Returns the cached password while it is younger than the TTL, otherwise what was fetched; a fetch that raises leaves the cache as it was. |
| PasswordProvider.ReturnedPasswordsAreFresh | src/db/password_provider.py:52-82 | The fetch of every returned password began after every invalidation finished before the call took the lock; cached ones were younger than the TTL. |
| PasswordProvider.YoungPasswordIsReused | src/db/password_provider.py:52-71 | A call that gets the lock returns the cached password at once exactly when that is younger than the TTL, and otherwise fetches under the lock. |
| PasswordProvider.CacheIsUsed | src/db/password_provider.py:52-71 | A run in which a second call is served from the cache and a third fetches because the TTL has passed. |
| PasswordProvider.FetchedPasswordIsCached | src/db/password_provider.py:61-71 | A fetch that succeeds is returned and cached, one that raises leaves the cache; both let go of the lock. |
| PasswordProvider.RetryUsesNewPassword | src/db/session.py:115-150 | The single retry of `_open_session` never uses a password fetched before the authentication failure. |
| PasswordProvider.RetryFetchesAnew | src/db/session.py:115-150 | Left alone after an authentication error, `_open_session` empties the cache, fetches anew and retries with what it fetched, or gives up when that raises. |
| PasswordProvider.FirstTryDecides | src/db/session.py:115-150 | Only an authentication error leads to a refresh; success is used, and any other error is given up. |
| PasswordProvider.OneFetchAtATime | src/db/password_provider.py:52-71 | No two calls fetch at the same time. |
| CiFix.TaskRow.UpdateStatus | src/db/queries/task_query.py:90-110 | Writes the status, patches attempt and error message only when given, and merges the state and the PR map. |
| CiFix.React | src/services/webhook_service.py:176-273 | A delivery is answered with 503 exactly while RUNNING, writes only to a task that is neither running, fixing nor finished, and starts a fix only without a session and with attempts left. |
| CiFix.HandleWorkflowRun | src/services/webhook_service.py:146-273 | The handler moves the task under exactly those conditions, asks for redelivery exactly while it is RUNNING, and touches neither attempt, state, error message nor PR map. |
| CiFix.DeliveryMovesExactly | src/services/webhook_service.py:176-273 | In any state, a delivery moves the task to COMPLETED exactly on success, to NEEDS_HUMAN exactly on a failure without attempts left and without a session in sight, to FIXING exactly on any other failure, each only while the task waits or publishes; and spawns a fix exactly with the last, when no session is in sight. |
| CiFix.RunDevopsFix | src/services/webhook_service.py:275-382 | Records AWAITING_CI or NEEDS_HUMAN according to the PR urls its agents leave, the latter with its message; whatever raises, the broadcasts after that commit included, ends in FAILED with the error cut to 2000 characters, unless the handler raises too; every record carries the captured attempt plus one. |
| CiFix.FixEndsWell | src/services/webhook_service.py:317-360 | Left alone, a fix ends AWAITING_CI when it left PR urls and NEEDS_HUMAN when not, with the captured attempt plus one. |
| CiFix.FixRaisesLate | src/services/webhook_service.py:317-382 | A fix whose broadcast raises after its outcome is recorded ends FAILED unless that write fails too, and counts as one attempt. |
| CiFix.FixRaisesEarly | src/services/webhook_service.py:317-382 | One that raises before ends FAILED with one attempt more, or leaves the task as it is when that write fails. |
| CiFix.RaisesExactlyWhenOneDoes | src/services/webhook_service.py:317-320 | The agents leave no state exactly when one of them raises. |
| CiFix.LastUrlsStay | src/services/webhook_service.py:317-323 | Otherwise the PR urls are those of the last agent that gave any, or the ones there were. |
| CiFix.FixLoopIsBounded | src/services/webhook_service.py:176-382 | Over any run of deliveries, fixes with their broadcasts, sessions, retries and restarts in one worker, without a late failure record, attempts plus fixes in flight stay within the maximum, at most one fix is in flight, and the attempt counts the recorded fixes. |
| CiFix.AttemptNeverDecreases | src/services/webhook_service.py:176-382 | Along any such run the recorded attempt never decreases. |
| CiFix.AttemptDropsExactlyWhenLate | src/services/webhook_service.py:338-380 | The next step lowers the attempt exactly when it records FAILED for a fix whose broadcast raised and after whose outcome another outcome has been recorded. |
| CiFix.LateFailureBreaksTheBound | src/services/webhook_service.py:338-380 | A run in one worker with two attempts allowed in which the attempt falls from two to one and a third fix is recorded. |
| CiFix.SecondFixExactlyWhenUnseen | src/services/webhook_service.py:213-271 | With a fix in flight, a delivery starts a second one exactly when a failure reaches a worker that does not see the live session, while it waits or publishes and attempts are left. |
| CiFix.UnseenSessionBreaksTheBound | src/services/webhook_service.py:220-233 | A run over two workers with two fixes in flight where one attempt was allowed. |
| Resume.FirstTurnAtMostOnce | src/agents/team/orchestrator_agent.py:191-243 | Over any crashes, sweeps, resumes and retries, the description is sent as a first turn at most once under each SDK session id, and only under an id committed and opened before. |
| Resume.FreshExecutionRunsThrough | src/agents/team/orchestrator_agent.py:191-243 | Left alone, an execution of its own commits a fresh id to the row, opens the client with it and sends the first turn under it, once. |
| Resume.ResumedExecutionSendsNothing | src/agents/team/orchestrator_agent.py:191-243 | A resumed one opens the id it was given, and sends nothing of its own. |
| Resume.SweepResumesOrFails | src/api/app.py:242-316 | The sweep resumes a task in flight under the id in its row, fails it when there is none, and leaves every other task. |
| Resume.OpenedUnderCommittedId | src/agents/team/orchestrator_agent.py:199-234 | Clients are opened only with committed ids, and a resuming one with the id it was told to resume. |
| Resume.LostFirstTurn | src/api/app.py:248-346 | When the process dies between the commit of the id and the first turn, the description is never sent under that id, whatever happens next. |
| Resume.LostExactlyWhenNobodySends | src/agents/team/orchestrator_agent.py:199-243 | A committed, unsent id never gets its first turn exactly when no execution that is still to send its own works under it. |
| Resume.CrashAfterCommit | src/api/app.py:264-316 | Such a state is three steps from a new task, and the sweep resumes that id. |
| MemoryEntities.ExtractEntities | src/agent_tools/custom_tools/memory/entity_extractor.py:22-64 | Every tool call yields at most two entities, of different kinds, each with an edge type that fits its kind. |
| MemoryEntities.EdgeTellsTheTool | src/agent_tools/custom_tools/memory/entity_extractor.py:22-132 | For every call, wrote edges come exactly from Edit and Write, read edges exactly from Read, Glob and Grep, targeted ones only from GitHub tools, subagents only from Agent; a file is named by one of the inputs. |
| MemoryEntities.WrittenFiles | src/agent_tools/custom_tools/memory/entity_extractor.py:43-48 | A call writes a file exactly when it is an Edit or a Write with that non-empty `file_path`. |
| MemoryEntities.ReadFiles | src/agent_tools/custom_tools/memory/entity_extractor.py:40-56 | And reads one exactly when it is a Read with that `file_path`, or a Glob or Grep with that `path`. |
| MemoryEntities.SubagentsCalled | src/agent_tools/custom_tools/memory/entity_extractor.py:57-64 | A subagent is called exactly by Agent, under the given type or as unknown; Bash yields nothing. |
| MemoryEntities.ChannelsCalled | src/agent_tools/custom_tools/memory/entity_extractor.py:123-132 | A channel is called exactly by a Slack tool that is given it. |
| MemoryEntities.ReposTargeted | src/agent_tools/custom_tools/memory/entity_extractor.py:99-120 | A repository is targeted exactly by a GitHub tool, as owner and repo when both are given, else as the combined key if it has a slash. |
| MemoryEntities.ApisCalled | src/agent_tools/custom_tools/memory/entity_extractor.py:73-96 | An API is called exactly by an MCP tool outside the memory tools, under its provider. |
| MemoryEntities.NothingElse | src/agent_tools/custom_tools/memory/entity_extractor.py:22-132 | There are no other entities, and none occurs twice. |
| MemoryEntities.ProviderIsNamed | src/agent_tools/custom_tools/memory/entity_extractor.py:94-96 | The provider of an MCP tool name is the part between the first two double underscores. |
| MemoryEntities.ProviderIsUnknown | src/agent_tools/custom_tools/memory/entity_extractor.py:94-96 | A name without two double underscores has the provider unknown. |
| MemoryEntities.ExtractMcp | src/agent_tools/custom_tools/memory/entity_extractor.py:73-96 | As above for MCP tools; the memory tools themselves and tools outside MCP yield nothing. |
| MemoryEntities.ApiIsTheProvider | src/agent_tools/custom_tools/memory/entity_extractor.py:73-132 | Whichever branch handles it, an MCP call outside the memory tools names its provider as API, first and once. |
| MemoryEntities.RepoSpellingsAgree | src/agent_tools/custom_tools/memory/entity_extractor.py:99-120 | The combined repository key gives the same entities as owner and repo. |
| MemoryEntities.RepoIsIdentified | src/agent_tools/custom_tools/memory/entity_extractor.py:99-120 | Two calls that give owner and repo refer to the same entities exactly when they give the same ones, for slash-free owners. |
| MemoryEntities.ChannelIsIdentified | src/agent_tools/custom_tools/memory/entity_extractor.py:123-132 | Slack calls refer to the same entities exactly when they name the same channel, or none. |
| MemoryGraph.GraphIsTheIndex | src/agent_tools/custom_tools/memory/graph_writer.py:92-251 | However the transactions of any number of writers interleave and fail, the edge table holds exactly the edges of the log, every call has its own action, no entity has two nodes, and every call's links are its entities whose writes succeeded. |
| MemoryGraph.CallAdded | src/agent_tools/custom_tools/memory/graph_writer.py:187-227 | A recorded call gets a new action node whose edge is always inserted afresh, and the graph stays the index of the log. |
| MemoryGraph.LinkAdded | src/agent_tools/custom_tools/memory/graph_writer.py:229-251 | The edge to one more entity of any call, whatever others have written since, is inserted with weight 1, never merged, and the graph stays the index of the log. |
| MemoryGraph.RepeatedEdgeGainsWeight | src/agent_tools/custom_tools/memory/graph_writer.py:187-251 | An edge that is there already would gain one in weight; a new one weighs one. |
| MemoryGraph.LostExactlyWhenOvertaken | src/agent_tools/custom_tools/memory/graph_writer.py:147-183 | With no transaction failing by itself, an entity is lost exactly when its SELECT found nothing and another writer inserted it before its INSERT. |
| MemoryGraph.RaceLosesALink | src/agent_tools/custom_tools/memory/graph_writer.py:147-183 | Four transactions of two calls that name the same new entity, after which one of them has lost it and the other goes on to its edge. |
| MemoryGraph.RaceHappens | src/agent_tools/custom_tools/memory/graph_writer.py:92-183 | A schedule from the empty graph, two calls of Read on one path, in which no transaction fails by itself and one call has lost its only entity. |
| MemoryGraph.UndisturbedCallLinksAll | src/agent_tools/custom_tools/memory/graph_writer.py:92-126 | With nobody in between and nothing failing, a recorded call is linked to every entity it refers to. |
| MemoryGraph.FailureSkipsTheEntity | src/agent_tools/custom_tools/memory/graph_writer.py:117-124 | A transaction that fails writes nothing: its entity is skipped, and the call goes on with the next one. |
| MemoryGraph.OutcomeReachesItsAction | src/agent_tools/custom_tools/memory/graph_writer.py:128-145 | An outcome reaches exactly the actions with that tool use id, and no other node. |
| MemoryGraph.EdgeOrigin | src/agent_tools/custom_tools/memory/graph_writer.py:92-126 | Every edge of the indexed table comes from one call of the log: its own, or one of its links. |
| MemoryGraph.GraphWriter.RecordToolCall | src/agent_tools/custom_tools/memory/graph_writer.py:92-126 | Whatever others write between its transactions and whichever of them fail, the graph stays the index of the log, which holds the call with exactly the extracted entities whose writes succeeded linked; the whole is a schedule of the machine. |
| MemoryGraph.GraphWriter.UpsertEntity | src/agent_tools/custom_tools/memory/graph_writer.py:147-183 | With others writing between SELECT and INSERT, the call gets the one node of its entity or none; none without a failing transaction only if somebody else created the node meanwhile. |
| MemoryGraph.GraphWriter.PatchActionOutcome | src/agent_tools/custom_tools/memory/graph_writer.py:128-145 | Patches exactly the actions with that tool use id; the graph stays the index of the log. |
| MemoryGraph.GraphWriter.FinishTask | src/agent_tools/custom_tools/memory/graph_writer.py:71-88 | Changes the status of that task node alone; the graph stays the index of the log. |
| MemoryRetrieval.EdgesAreLayered | src/agent_tools/custom_tools/memory/graph_writer.py:187-251 | Every edge runs from a task to an action or from an action to an entity, and weighs 1. |
| MemoryRetrieval.WeightIsLinks | src/agent_tools/custom_tools/memory/graph_writer.py:92-126 | The total weight between actions and entities is the number of entities linked by the calls of the log. |
| MemoryRetrieval.WeightPlusLosses | src/agent_tools/custom_tools/memory/graph_writer.py:92-251 | After any schedule of all writers, that weight plus the failed or overtaken writes is the number of extracted entities dealt with. |
| MemoryRetrieval.FaultsAreTheOnlyLoss | src/agent_tools/custom_tools/memory/graph_writer.py:117-124 | A call is linked to everything dealt with exactly when none of its writes failed or came too late. |
| MemoryRetrieval.ExpansionIsTheLog | src/agent_tools/custom_tools/memory/retrieval.py:97-123 | Up to their order, the two-hop join over the edge table returns exactly the rows of a direct scan of the log. |
| MemoryRetrieval.FormatRecall | src/agent_tools/custom_tools/memory/retrieval.py:242-307 | Each task's block counts its action rows per tool and lists the files, APIs and subagents its entity rows name, each once, at most eight files. |
| MemoryRetrieval.RecallReportsTheLog | src/agent_tools/custom_tools/memory/retrieval.py:97-125 | In whatever order the rows come, the counts printed are the recorded calls per tool, and the lists are what the task touched, files cut at eight. |
| MemoryRetrieval.HitExactlyWhenTouched | src/agent_tools/custom_tools/memory/retrieval.py:143-155 | The five-way join finds a task exactly when it belongs to the user and some call of it was linked to the entity. |
| MemoryRetrieval.HistoryIsTheLog | src/agent_tools/custom_tools/memory/retrieval.py:143-160 | Entity history lists only such tasks, all of them when fewer than ten, and otherwise none left out is newer than one listed. |
| Rrf.MergeBy | src/agent_tools/custom_tools/memory/retrieval.py:72-84 | For any weight per rank, the two accumulating loops and the sort give the first `limit` ids of the ranking by summed weights. |
| Rrf.Merge | src/agent_tools/custom_tools/memory/retrieval.py:72-84 | The merge of `recall` is that one with the weights 1 / (60 + rank). |
| Rrf.SortRanks | src/agent_tools/custom_tools/memory/retrieval.py:84 | The sorted keys have falling scores, and equal scores keep the order in which the ids were first seen. |
| Rrf.EachIsRankedOnce | src/agent_tools/custom_tools/memory/retrieval.py:72-84 | Every id of the two legs is ranked exactly once. |
| Rrf.TopIsTheFront | src/agent_tools/custom_tools/memory/retrieval.py:84 | The result is the front of the ranking: `limit` ids if there are so many. |
| Rrf.ScoreIsTheSum | src/agent_tools/custom_tools/memory/retrieval.py:72-82 | An id scores 1 / (61 + i) for its place i in each leg it is in. |
| Rrf.ReciprocalFalls | src/agent_tools/custom_tools/memory/retrieval.py:22-76 | The weights 1 / (60 + rank) are positive and fall with the rank, which is all the results below need of them. |
| Rrf.AheadStaysAhead | src/agent_tools/custom_tools/memory/retrieval.py:72-84 | An id ahead of another in both legs is ahead of it in the top list, whatever the limit. |
| Rrf.TopIsBest | src/agent_tools/custom_tools/memory/retrieval.py:72-84 | No id left out scores more than one that is kept. |
| Rrf.OneLegIsKept | src/agent_tools/custom_tools/memory/retrieval.py:72-84 | With one leg empty, the top ids are the first `limit` ids of the other, in order. |

## Left out

- CiFix.FixLoopIsBounded: states the bound for deliveries to the worker that hosts the session and without late failure records; without either it is false, with the exact conditions in CiFix.SecondFixExactlyWhenUnseen and CiFix.AttemptDropsExactlyWhenLate.
- Rrf.AheadStaysAhead: ranks are fused in exact reals, so ties and differences that only float rounding makes are not modelled.
- ApprovalGate.StatusShowsTheWait: its second half is for tool calls made one at a time; for parallel hooks the exact statement is ApprovalGate.StatusStopsShowingExactly.
- SessionStore.LoadReturnsHistory: appends to one key are whole read-modify-write steps, as the SDK serialises them; two writers of one key are not modelled.
- SessionRuns.CompletedSessions: that the clocks leave the idle time for each double wait is enough for a word to be written, not necessary, likewise for SessionRuns.FailedSessions; SessionRuns.ChatLanguage is exact over all clocks.
- MemoryEntities.ExtractEntities: states the shape of the list; exactly which entities are in it is in the lemmas from MemoryEntities.WrittenFiles to MemoryEntities.NothingElse, likewise for MemoryEntities.ExtractMcp.
- ApprovalGate.PermissionGate.WaitForDecision: a whole wait during which at most one resolve passes by; arbitrary interleavings are in the state machine beside it (ApprovalGate.NoLostWakeup, ApprovalGate.AnsweredHookReturns).
- AwsProxy.AwsMcpProxy.HandleProxyRequest: a request that meets no other request; concurrent ones are in the state machine beside it (AwsProxy.RenewedAtMostOnce, AwsProxy.LaterVictimReuses).
- The hook, the handler, the orchestrator and the startup sweep are state machines over values, not classes, because what matters about them is how they interleave.
- Redis expiry (24 h), lost pubsub connections, task cancellation, the grace period of a shutdown and hook timeouts of the SDK.
- HTTP, request signing, JWT, httpx, boto3, the SDK client and git: their results are arbitrary inputs of the steps.
- A database without a secrets manager, where the credentials refresh does nothing, and reuse of pooled connections.
- `_publish_turn` beyond its PUBLISHING write: the branch and PR maps it merges per repository are plain dictionary updates, and the status it passes at the end is the one it has just read.
- Embeddings, and the other columns of memory nodes that no query modelled here reads.
- The `ask_user` tool, which waits at the same gate, and matching tool names against permission patterns.
- `list_recent`, `annotate_task`, full-text ranking, and the layout of the memory block: descriptions cut to 120 characters and tools sorted by their counts.
- Envelope validation and the chat and close messages of the WebSocket view beyond pushing and requesting a close.
- Object listings that change while a prefix is being deleted, and objects in a bucket written by others.
- Values in tool inputs and approval payloads other than strings.
