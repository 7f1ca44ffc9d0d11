# Verification of the ProxmoxVue agent

The agent runs beside a Proxmox VE cluster. It takes commands from two database
tables (`commands`, `read_commands`), carries them out on Proxmox, and writes
the result back. It hears of new rows over a Realtime WebSocket and looks for
rows it missed with one query after every join. It keeps one rotating refresh
token in `config.yml`, and starts from a remote config that it caches.

The model has four parts.

**Commands.** `HandlerProgram` is the program counter machine both `Handle`
functions follow, and `Routing` what a row asks of Proxmox. `Claims` is a
transition system over any number of rows in both tables, any number of agents
and any number of handlers per row. Requests may be refused, garbled, delayed
past the agent's own timeout, or lost before or after they take effect, and a
handler may die at any point. `AtomicSpec` is the specification it refines.
`World`, `SupabaseClient`, `Dispatcher` and `Polling` are the same code in its
imperative form: the dispatcher's methods are proved to be runs of the handler
program, and the client's refreshes to be steps of `Tokens`.

**Subscription.** `Pipeline` holds the read loop's filter and the two 16-slot
channels. `Subscription` puts reconnects, join, catch-up, pipeline and handlers
together; `Page` and `Backlog` say what the catch-up query returns and how a
backlog drains. `Registry` is the map of live subscriptions with its
broadcaster, `Broadcast` how long the tokens pushed by it live, `Heartbeat` the
acknowledgement lag.

**Tokens and files.** `Tokens` is the refresh-token chain with a crash possible
between any two steps, the rewrite of `config.yml` at each start included.
`Overlap` lets refreshes interleave. `ConfigFile` is what a crash leaves of a
`config.yml` being rewritten in place, `RemoteConfig` the cached startup config,
`Annotate` the walk that puts comments into `config.yml`.

**Text.** `Whitelist` is the list of readable endpoints as regular languages,
`Query` the query string of a read command.

`dafny verify dfyconfig.toml` checks everything.

## What is assumed

- In `Tokens` refreshes do not overlap. `refresh` releases its mutex around the
  POST (`internal/supabase/client.go:226-228`), so the code does not ensure this;
  `Overlap` lets any number of them interleave, without restarts.
- A 401 changes nothing in the database. Every other answer may come from a
  request that was applied.
- Realtime sends every INSERT committed after a successful join on the joined
  connection, and may send other frames, repeats included, at any time.
- There is one reconnect loop per topic, and one process writes the config cache.
- A sleep lasts at least its duration. In `Broadcast` and `Heartbeat` a tick's
  own work takes no time.
- JSON and YAML decode what they encoded. Strings are sequences of characters,
  the escape function of a query is a parameter, and a JSON number is the sign
  and the millionths that `%f` prints.
- The node tree `Annotate` walks is a tree: no node occurs in it twice.
- The disk keeps a completed rename; there is no power loss.

## Where code and documentation differ

The model follows the code.

- `docs/ARCHITECTURE.md:96-98` says that there is no catch-up; the code runs one
  after every join (`internal/runtime/runtime.go:110-128`).
- `internal/supabase/client.go:119-122` promises every subscription at least 30
  minutes of token validity at the next tick. `Broadcast.FirstTickExact` and
  `StraddlingExact` say exactly when that holds; `LateFirstJoin` and
  `StraddlingJoin` are runs in which it does not.
- `internal/keysync/keysync.go:38-39` saves the key so that a restart finds it.
  It saves the config loaded before the first refresh, whose token is already
  used: `Tokens.StartKeepsDiskIffKeyed` and `MissingKeyThenCrash`.
- A rotated token that cannot be written to disk, or whose answer is lost, costs
  the session although the agent goes on running: `Tokens.LosingSteps` and
  `LostIffLosingStep`.
- ErrRefreshRevoked stands for a session that needs re-enrolment
  (`internal/supabase/client.go:199-202`), but a healthy session gets it when
  refreshes overlap: `Overlap.HealthyButRefused`.
- `Save` rewrites `config.yml` in place (`internal/config/config.go:265-280`), at
  each start (`cmd/proxmoxvue-agent/main.go:115-118`) and when a key is made. A
  kill there can lose the session (`Tokens.LostWithoutRefresh`), or leave a file
  that starts an agent without some settings or with a part of its Proxmox secret
  (`ConfigFile.CutStarts`).
- `readCache` does not check URL and key. A cached config has them because only
  `writeCache` writes the file: `RemoteConfig.Fetcher.Load`.
- When several params of a read command are unsupported, the error names the one
  the map iteration reaches first (`Query.BuildPath`).

## Model

| member | source | states |
|---|---|---|
| Claims.StepKeeps | internal/commands/dispatcher.go:163-288 | every step of every handler, agent and request keeps the protocol's inductive invariant |
| Claims.AtMostOneCall | internal/supabase/commands.go:30-45 | in every run each row has at most one Proxmox call, made by the handler whose conditional PATCH flipped the row, which saw it unexpired, and it is the call the row asks for |
| Claims.ExpiredMakesNoCall | internal/commands/dispatcher.go:168-179 | a handler whose TTL check sees its row expired makes no call for any row at any point of the whole run |
| Claims.SeenStays | internal/commands/dispatcher.go:168-179 | what the TTL check of a handler saw is never revised later in the run |
| Claims.CheckExact | internal/commands/dispatcher.go:168-169 | the TTL check sees a row as expired exactly if it has an expiry and the clock is past it |
| Claims.LateMakesNoCall | internal/commands/dispatcher.go:168-174 | in every run, once a row is past its expiry, no handler that has not made its check yet, or not even started, ever calls for it |
| Claims.EarlyIsNotExpired | internal/commands/dispatcher.go:168-174 | a handler that checks a row without an expiry, or at or before it, never finishes it as expired |
| Claims.FaultExact | internal/supabase/commands.go:114-150 | a handler is faulty exactly after a crash, a failed refresh, an error or no answer, or a second 401 |
| Claims.RowHistory | internal/supabase/commands.go:69-81 | a row's history is a prefix of pending, claimed, one final status; expired means past expiry and no call, done means one call |
| Claims.FinalIsForever | internal/supabase/commands.go:69-81 | although the completing PATCH has no status guard, no final status is overwritten, no call is added to a final row and its owner never changes |
| Claims.WinnerCompletes | internal/commands/dispatcher.go:163-288 | a handler that won its row and returned without a crash or store error has completed it exactly once, after making exactly the call the row asks for, or none if it saw the row expired or the row asks for none; in both tables |
| Claims.HandlerNeverStuck | internal/commands/dispatcher.go:163-288 | in every state that meets the invariant, a handler that has not returned has a next step that is not a crash |
| Claims.WorkDescends | internal/commands/dispatcher.go:163-288 | each step of a handler or its request uses up a finite measure that no other step changes, so no interleaving makes it run for ever |
| HandlerProgram.RunIsShort | internal/commands/read_dispatcher.go:84-125 | whatever the environment answers, a handler returns after at most ten events |
| AtomicSpec.RunRefines | internal/commands/dispatcher.go:163-288 | every concurrent run maps state by state to a run of a system that takes a row, acts on it once and closes it once: same clock and rows, open exactly for pending, taken or acted on exactly for claimed, closed with a result exactly for finished with it, and the call it shows is the call made |
| AtomicSpec.StepRefines | internal/supabase/commands.go:26-81 | every protocol step maps to a stutter or to one step of one row of the specification |
| AtomicSpec.TraceLeads | internal/commands/dispatcher.go:163-288 | in a specification run a row is taken, acted on and closed at most once each; closed as done needs a call, as expired excludes one, as failed without one needs a row that an agent refuses to route |
| Routing.RouteWriteExact | internal/commands/dispatcher.go:192-264 | a write row leads to a Proxmox call exactly if that call is the one its action names, on the guest and snapshot of its payload, with a sealed password that opens under the key or, without a sealed one, the plain password |
| Routing.RouteByName | internal/proxmox/actions.go:42-79 | each of the twelve action names, written out, leads to its own call and no other name does; snapshots need a valid name, a container a password |
| Routing.RejectReasons | internal/commands/dispatcher.go:192-240 | every rejection reason is given exactly for the rows that fail its check and none before it |
| Routing.SnapshotNameExact | internal/proxmox/actions.go:257-262 | the names accepted are those of 2 to 40 characters from the written-out alphabet that begin with a letter |
| Routing.NeverUnrouted | internal/commands/dispatcher.go:214-264 | the fallback branches of the routing switch are never taken, for any row |
| Routing.RouteReadExact | internal/commands/read_dispatcher.go:84-125 | a read row leads to a GET exactly if one of the whitelist's expressions accepts its endpoint and its params are absent or a flat object |
| Dispatcher.ClaimRuns | internal/supabase/commands.go:114-150 | a claim with its one retry drives the handler program from claiming to the point its last answer decides |
| Dispatcher.CompleteRuns | internal/supabase/commands.go:114-150 | a completion with its one retry drives the handler program to its return, whatever is answered |
| Dispatcher.Handlers.HandleCommand | internal/commands/dispatcher.go:163-288 | is a complete run of the handler program whatever database and Proxmox answer, beginning with the check of expiry against the clock; it writes nothing, claimed, or claimed and then exactly the final status its check, call and last poll demand; it calls exactly what the row asks for, only after its claim took effect and never for an expired row; it gives up on a working task only after the timeout or on cancellation; it returns an error exactly if its last store request failed, the failed claim of an expired row excepted |
| Dispatcher.Handlers.HandleReadCommand | internal/commands/read_dispatcher.go:84-125 | the same for read rows, which have no task to await; the one GET has the path that the endpoint and params determine |
| Dispatcher.VerdictExact | internal/commands/dispatcher.go:270-287 | the status is expired exactly for an expired row, and done exactly for a live one whose call succeeded and, for a write, whose task was last seen stopped with OK |
| Dispatcher.Handlers.Expire | internal/commands/dispatcher.go:168-174 | the expired branch claims the row only to mark it expired, calls nothing, and returns an error only if the marking failed |
| Dispatcher.Handlers.RouteCommand | internal/commands/dispatcher.go:192-264 | picks a Proxmox call exactly if it is the one the action names on what the payload gives, else rejects |
| Polling.AwaitTaskCompletion | internal/proxmox/actions.go:291-314 | at most timeout/500 + 2 polls; all but the last saw the task working, the result is OK exactly if the last saw it stopped with OK, and giving up on a working task needs a cancelled context or a passed deadline |
| Polling.WaitForClusterStateMatch | internal/runtime/runtime.go:207-231 | at most ceil(timeout/500) polls; ends at the first that shows the status, otherwise with the context cancelled or after the full timeout; no poll without expectation or guest |
| Polling.HasGuestState | internal/runtime/runtime.go:237-251 | true exactly if an entry has this id and this status |
| Polling.ExpectedStateExact | internal/commands/dispatcher.go:139-157 | which state each action is expected to lead to, within ten seconds, and that no other action has one |
| SupabaseClient.CacheIsSound | internal/supabase/client.go:205-214 | a token served from the cache is always alive at the server if and only if storing it took at most 30 s from issue |
| SupabaseClient.Client.Refresh | internal/supabase/client.go:225-285 | takes the steps of exactly one refresh of the token chain; succeeds exactly if the answer brings new tokens and config.yml is read, saved and renamed, and then memory, disk and server agree and the expiry counts from now; failure leaves memory and cached token as they were; reports revoked exactly if the server answered that the token was used |
| SupabaseClient.Client.Persist | internal/runtime/runtime.go:339-369 | succeeds exactly if config.yml can be loaded and all three file operations succeed; then the new token is on disk and no other field has changed; failure leaves the file alone |
| SupabaseClient.Client.AccessToken | internal/supabase/client.go:205-214 | more than 30 s left: the cached token and no change at all; otherwise exactly one refresh, whose token is returned if and only if it succeeded |
| SupabaseClient.Client.PatchWithAuth | internal/supabase/commands.go:114-150 | at most two attempts and at most one change of the database by them; no attempt only if the cached token was stale and its refresh failed; a second one only after a 401 and a successful refresh; the answer is that of the last attempt |
| SupabaseClient.Client.Claim | internal/supabase/commands.go:30-45 | true only if this call flipped the row; false without error means it changed nothing |
| SupabaseClient.Client.Complete | internal/supabase/commands.go:69-81 | at most two attempts, and at most one change, to the given final status |
| SupabaseClient.Client.PostRow | internal/supabase/rest.go:78-126 | at most two attempts, the second only after a 401, and at most one inserted row; fails exactly if the last attempt did or no token could be had |
| Tokens.TokenChain | internal/supabase/client.go:225-285 | in every run from a config with a key, at every point where a crash can fall, the disk holds the server's token or its predecessor, unless a start is just rewriting the file or the session is lost; whatever it holds has the first key, cluster and Proxmox address and a prefix of the secret; outside a refresh, unless the session is lost, memory, disk and server agree, so the token is never in memory only |
| Tokens.LosingSteps | cmd/proxmoxvue-agent/main.go:98-118 | in every run, with or without a key, a step loses the session exactly if it is a crash, lost answer or failed persist between rotation and rename, a crash or failed write in the rewrite at a start that leaves no config a start accepts, or a crash while the token is in memory only |
| Tokens.GapFailuresPossible | internal/supabase/client.go:243-276 | at every point between rotation and rename a crash, and a lost answer or a failed persist, can come and loses the session |
| Tokens.LostIffLosingStep | internal/runtime/runtime.go:339-369 | over every whole run, the session is lost exactly if some earlier step was one of these |
| Tokens.LostWithoutRefresh | cmd/proxmoxvue-agent/main.go:115-118 | from any config, a kill inside the rewrite of the first start loses the session although no refresh was ever under way |
| Tokens.SettingsIntact | internal/config/config.go:156-193 | unless a crash or failed write in a rewrite leaves a cut file that a start accepts, nothing but the token and filled-in defaults ever changes in config.yml |
| Tokens.LostForever | internal/supabase/client.go:259-262 | in every run a lost session never rotates again and stays lost, whatever is restarted or rewritten |
| Tokens.AcceptedUnlessLost | internal/supabase/client.go:259-262 | in every run a refresh that reaches the server is accepted exactly if the session is not lost, and answered as revoked exactly if it is |
| Tokens.RefreshHeals | internal/supabase/client.go:225-285 | one undisturbed refresh from any state whose memory holds the server's token puts memory, disk and server in step, whatever token the disk held |
| Tokens.StartKeepsDiskIffKeyed | internal/runtime/runtime.go:35-100 | after an undisturbed start the disk holds the server's token if and only if config.yml already had a private key; otherwise it holds the used one, and a crash loses the session |
| Tokens.MissingKeyThenCrash | internal/keysync/keysync.go:41-55 | without one, a crash right after start makes the next start fail as revoked |
| Tokens.MissingKeyThenRefresh | internal/keysync/keysync.go:41-55 | without a crash, the next refresh restores equality |
| Tokens.TornKeySave | internal/keysync/keysync.go:41-55 | a crash while the missing key is written, wherever it cuts the file, loses the session; a start accepts the file exactly if the cut reaches the secret, and then has its first refresh answered as revoked |
| Tokens.CutIsRepaired | cmd/proxmoxvue-agent/main.go:98-118 | a cut config.yml that a start accepts is made whole by that start, defaults filled in, with the token it holds, used or not; a lost session stays lost |
| Tokens.KeySaveCrashLoses | internal/keysync/keysync.go:41-55 | in every run, a crash at any point of a key save loses the session |
| Overlap.RefusedExactly | internal/supabase/client.go:225-285 | any number of refreshes read, post, persist and store in any interleaving: one is answered as revoked exactly if another was served since it read its token, or had been served and not stored when it did, or the session was lost then |
| Overlap.ChainHolds | internal/supabase/client.go:225-285 | however refreshes overlap, at most one is between server and memory; server, disk and memory agree, or that one is on its way and memory is one behind, or the session is lost |
| Overlap.LostOnlyByFailure | internal/supabase/client.go:270-285 | overlap alone never loses the session: a step does exactly if it fails a refresh that was served and is not stored |
| Overlap.HealthyButRefused | internal/runtime/runtime.go:177-181 | a run without failures in which a refresh of a healthy session is answered as revoked, the error on which the agent stops |
| Overlap.AcceptedOnce | internal/supabase/client.go:259-262 | whatever tokens are presented in whatever order, the server accepts none twice |
| ConfigFile.CutStarts | internal/config/config.go:265-292 | any config, cut anywhere by a crash in the in-place Save, passes Load and the validation of Start exactly if it was valid and the cut decodes and reaches a visible character of the token secret; then all before the secret is complete, and the secret is exactly if the cut is behind it |
| ConfigFile.DefaultsKeep | internal/config/config.go:156-193 | filling in defaults is idempotent, touches nothing a start validates and keeps a valid log level valid |
| ConfigFile.DefaultsExact | internal/config/config.go:156-193 | the seven defaults, value by value, and that what is set stays |
| ConfigFile.ValidatesExact | internal/runtime/runtime.go:324-334 | a config validates exactly if cluster and token are set, the address has a scheme, and id and secret have a visible character |
| Pipeline.ReadLoop | internal/supabase/realtime.go:331-402 | over any frames, forwards exactly the records of the INSERT frames in order, by their places in the input, and counts exactly the replies on the heartbeat topic |
| Pipeline.RunConserves | internal/supabase/realtime.go:46-131 | in every interleaving, until cancellation, the INSERT records read are those taken, buffered and in hand, in order, and the decodable ones taken are those delivered, buffered and in hand; both channels keep to 16 |
| Pipeline.DeliveredInOrder | internal/supabase/realtime.go:46-65 | what is delivered is a prefix of the decodable INSERT records read, and all of them once the pipe is empty |
| Pipeline.GoodExact | internal/supabase/realtime.go:51-57 | the records kept are exactly the decodable ones, in order, by their places in the input |
| Pipeline.ShutdownNeverBlocks | internal/supabase/realtime.go:101-131 | after cancellation some loop can move until all have ended, and every move uses up what is left |
| Pipeline.ShutdownEnds | internal/supabase/realtime.go:46-65 | every schedule after cancellation is finite, and where it stops all loops have ended |
| Subscription.NoRowIsMissed | internal/supabase/realtime.go:224-248 | joined and caught up with fewer than 200 rows: every pending row is caught up and about to get a handler, or has one at work that this agent started since the join, unless such a handler met a fault; a row inserted since the join may instead be on the socket, in the pipeline or undecodable; nothing that failed before the join, or in another agent, excuses a row |
| Subscription.NoNewRowIsMissed | internal/supabase/realtime.go:240-248 | a row inserted since the join is covered in the same sense even if the catch-up failed or was full |
| Subscription.WhereItIs | internal/supabase/realtime.go:46-65 | what faulted, attended, on the socket, in the pipeline and undecodable mean, spelled out |
| Subscription.AtMostOneCall | internal/runtime/runtime.go:115-137 | with stream and catch-up delivering rows any number of times, each row has at most one Proxmox call |
| Subscription.StepProjects | internal/runtime/runtime.go:110-137 | every step of the whole system is a step of the protocol and a move of the pipeline, or leaves them alone |
| Page.LowestIsPage | internal/supabase/commands.go:51-65 | the rows taken lowest first are the min(n, limit) lowest ids in ascending order |
| Page.ShortPageIsAll | internal/supabase/read_commands.go:46-60 | a page that is not full holds every id |
| Backlog.CatchUpPage | internal/supabase/commands.go:51-65 | a catch-up hands over exactly the min(n, 200) lowest pending ids, in order |
| Backlog.RoundDrains | internal/runtime/runtime.go:115-128 | a round leaves exactly the backlog less its page pending, and no handler has touched the rest: a round is a served catch-up, then any steps that insert no row, serve no page and start no handler of a backlog row from the stream or another agent, until the page is handed over and its handlers have returned without fault |
| Backlog.StaysOnTrack | internal/runtime/runtime.go:115-128 | at every point of a round, each row of the page is about to get or has a handler, and no other row of the backlog has one |
| Backlog.BacklogDrains | internal/supabase/realtime.go:240-248 | from n pending rows that have had no handler, after k such rounds exactly max(0, n - 200 k) are pending |
| Registry.OwnConnectionOnly | internal/supabase/realtime.go:228-238 | in every interleaving a topic is registered exactly from the register of its subscribeOnce to the deferred unregister, with that call's own connection, which no other topic has; an unregister removes that connection and no other, and a register never finds an older one |
| Registry.OnePushEach | internal/supabase/client.go:156-185 | a tick has attempted exactly one push per entry of its snapshot when it ends, whatever joined, left or failed meanwhile |
| Registry.TickNeverBlocks | internal/supabase/client.go:170-177 | a pushing tick always has a next push, which may succeed or fail, or its end |
| Registry.ActiveSubs.RegisterSubscription | internal/supabase/client.go:102-109 | takes the Register step of the topic's loop in the transition system; the topic had no entry and now has this connection |
| Registry.ActiveSubs.UnregisterSubscription | internal/supabase/client.go:113-117 | takes the Unregister step; the entry it removes is the connection the same call registered |
| Registry.ActiveSubs.RefreshAndPushAll | internal/supabase/client.go:156-185 | while other goroutines join and leave at any point: no push after a failed refresh; otherwise one attempt with the fresh token per entry registered at the snapshot, in any order and whichever fail; all of it steps of the transition system |
| Broadcast.HalfHourLeft | internal/supabase/client.go:119-185 | if ticks refresh and reach everyone, no join straddles a tick, and no refresh falls inside a join before the first registration: at least 30 minutes left at the next tick, and before the first tick 30 minutes less the time from the last refresh to the first registration |
| Broadcast.TokenLeft | internal/supabase/client.go:156-185 | with any failures: each tick a token is behind costs 30 minutes, and before any tick the time from startup to first registration is lost too |
| Broadcast.JoinAndTickExact | internal/supabase/client.go:156-214 | a join reads the cached token if it has more than 30 s left, else a fresh one of an hour; a tick gives the reached subscriptions the fresh token and leaves the others theirs |
| Broadcast.FirstTickExact | internal/supabase/client.go:119-123 | in every run, before the first tick: a subscription has the promised 30 minutes left at it exactly if a refresh came between the first registration and the moment its join read the token, and any time left exactly if the last refresh by then was less than 30 minutes before the first registration |
| Broadcast.StraddlingExact | internal/supabase/realtime.go:138-238 | in every run whose ticks refresh and reach everyone, after the first tick: 30 minutes left at the next one exactly if the join read its token after the last tick, the tick pushed it one, or it read one issued at the very instant of that tick; each tick missed costs 30 minutes |
| Broadcast.StraddlingJoin | internal/supabase/client.go:119-123 | a run whose ticks all refresh and reach everyone, and a join straddling the first tick is left with nothing at the second |
| Broadcast.LateFirstJoin | internal/supabase/client.go:119-123 | a run in which nothing fails and a registered subscription still outlives its token before the first tick |
| Heartbeat.NoFalseLag | internal/supabase/realtime.go:280-325 | if each acknowledgement is read before the next tick, the connection is never closed for lag |
| Heartbeat.HealthyStaysOpen | internal/supabase/realtime.go:327-348 | and if writes succeed, the agent closes it neither for lag nor for read timeout |
| Heartbeat.DeadPeerIsClosed | internal/supabase/realtime.go:280-325 | if writes succeed and no acknowledgement is read from some time on, the connection is not open later than 50 s after it |
| Heartbeat.LagBetweenTicks | internal/supabase/realtime.go:308-322 | between ticks at most one heartbeat is unacknowledged on an open connection |
| Heartbeat.LagClosesExactly | internal/supabase/realtime.go:308-322 | a step closes for lag exactly if it compares with two or more heartbeats unacknowledged |
| Heartbeat.TimeoutExact | internal/supabase/realtime.go:331-345 | no frame gets older than 60 s on an open connection, and a step closes for that exactly at 60 s |
| Heartbeat.NeverStuck | internal/supabase/realtime.go:292-348 | an open connection always has a next step: time passes, a tick goes on, or the read deadline fires |
| Heartbeat.HeartbeatLoop | internal/supabase/realtime.go:292-325 | over any schedule, stops at the first tick whose write fails or whose lag reaches two, and closes exactly in the second case |
| RemoteConfig.ConfigAlwaysUsable | internal/remoteconfig/fetcher.go:87-176 | in every run, with crashes between file operations, the config in use has schema version 1, URL and key; the cache is never torn and holds the last live config whose write completed |
| RemoteConfig.AcceptExact | internal/remoteconfig/fetcher.go:98-141 | a response is accepted exactly if it decodes with schema version 1, URL and key; the cache is read back exactly if it decodes with schema version 1 |
| RemoteConfig.Fetcher.Load | internal/remoteconfig/fetcher.go:87-96 | live exactly if the response is acceptable, else cache exactly if it decodes with the right version, else baked-in; for any cache file the result is usable exactly if the response was accepted, the cache gave nothing, or what it gave has URL and key; a cache only the agent writes always does |
| RemoteConfig.Fetcher.WriteCache | internal/remoteconfig/fetcher.go:143-156 | success leaves the new config; failure or crash leaves the old file or, after the rename, the new one, never a torn one |
| RemoteConfig.Fetcher.RefreshLoop | internal/remoteconfig/fetcher.go:163-176 | the cache ends as it was or as one of the accepted responses |
| Whitelist.EndpointAllowed | internal/commands/read_dispatcher.go:53-60 | allows a path exactly if one of the fourteen expressions accepts it |
| Whitelist.WhitelistIsClassifier | internal/commands/read_dispatcher.go:36-51 | over all strings, the expressions accept exactly what a classifier of slash-separated segments accepts |
| Whitelist.WhitelistDisjoint | internal/commands/read_dispatcher.go:36-51 | no string is accepted by two of the expressions, so their order is irrelevant |
| Whitelist.RegexIsSegments | internal/commands/read_dispatcher.go:36-51 | for every such path expression, matching by cuts of the string equals matching segment by segment |
| Whitelist.AtomExact | internal/commands/read_dispatcher.go:36-51 | the four parts the expressions are made of, each as the set of its words |
| Query.BuildPath | internal/commands/read_dispatcher.go:130-162 | for every iteration order of the params map the path is the same function of the params; it fails exactly if the params are not an object or hold an unsupported value, and then names one that is |
| Query.QueryFromLeft | internal/commands/read_dispatcher.go:130-162 | read from the left, the query is the first key and value, escaped, with = between them, then & and the rest |
| Query.ParamTextExact | internal/commands/read_dispatcher.go:141-158 | a string stands for itself, a boolean for 1 or 0, a number for a neat numeral that reads back as it |
| Query.BeforeExact | internal/commands/read_dispatcher.go:130-162 | keys are ordered by the first character in which they differ, a prefix first |
| Query.ShownReadsBack | internal/commands/read_dispatcher.go:150-150 | for every sign and number of millionths, the trimmed text parses back to the same number |
| Query.ShownIsCanonical | internal/commands/read_dispatcher.go:150-150 | the text ends in no fraction zero and no dot, and distinct numbers have distinct texts |
| Query.SortKeys | internal/commands/read_dispatcher.go:130-162 | sorting gives the one ascending enumeration of the keys, whatever order they came in |
| Query.AscendingUnique | internal/commands/read_dispatcher.go:130-162 | a set of keys has exactly one ascending enumeration |
| Annotate.AnnotateComments | internal/config/config.go:238-263 | the in-place walk makes the tree's value the annotated one, writing head comments of that tree and nothing else |
| Annotate.OnlyComments | internal/config/config.go:238-263 | with comments erased, the tree is the one it was |
| Annotate.SecondPass | internal/config/config.go:238-263 | a second walk changes nothing |
| Annotate.CommentsExact | internal/config/config.go:238-263 | at every node: the documented comment if it is a key whose dotted path is documented, its old comment otherwise |
| Annotate.KeyPathExact | internal/config/config.go:249-258 | the path looked up for a key is the keys on the way to it joined by dots |
| Annotate.ShapesKept | internal/config/config.go:238-263 | no node is added or removed and no kind or value changes anywhere |

## Left out

- HTTP, WebSocket and TLS: a request has an abstract answer or none, and a frame is already decoded.
- HPKE, base64, JSON and YAML code: abstract values; the password of an `lxc.create` opens or does not.
- The form fields of `CreateVM`, `CreateLXC` and `DeleteGuest`: a call carries node, id and name, guest or password.
- `getRows` as a method: it retries as `postRow` does and changes nothing; what it returns is the page of `Subscription`.
- `handleCommand` beyond its two calls, and the snapshot push loop: they only send.
- `RotateKey` and `UploadPublicKey`: run by the operator, outside the life of a running agent; the callers that give no `persist` are left out with them.
- Backoff lengths and jitter: a reconnect may come at any time, and a failed dial or join is a reconnect that has not happened yet.
- The presence frame: no property depends on it.
- Deletion of rows, and changes of a row's expiry or payload after its insertion.
- Log settings but for the level check of a start, command line, enrolment, logging and log rotation: easy members only.
- The texts of error results: a final status is kept, its message is not.
- The text of the whitelist's expressions: they are given as sequences of fixed texts and the three sub-expressions used.
- Overlap.ChainHolds: says nothing of restarts while refreshes overlap.
- A cut file that decodes but does not validate: the next start rewrites it and gives up; `Tokens` leaves it as it is and counts the session as lost, though an operator may still find the token in it.
- The URL and key compiled into the agent: placeholders, since only their not being empty matters.
- Dispatcher.Handlers.HandleCommand: its branches are methods of their own.
- Annotate.AnnotateComments: the loop bodies are methods of their own, and the comment table is a parameter instead of the source's constant map.
