# Verified model of the IncidentFlow Kubernetes agent

The agent keeps one WebSocket session to a gateway, runs read-only Kubernetes commands
concurrently, reconnects with a growing delay, and waits for new credentials when its access
is revoked. This project models the parts of it that hold state, concurrency or arithmetic,
and proves what they promise over all inputs, all interleavings and all runs.

Two forms are used:

- Code that one goroutine runs is a method with the source's loops and fields, proved against
  a specification function or relation; lemmas then say what that specification means. A loop
  that asks the outside world something is driven by a finite script of its answers (`Round`,
  `Poll`, `Tenure`); a script that runs out stands for a loop that is still running, so a
  lemma about every script is a lemma about every run.
- Code that several goroutines run is a step machine on values: one step is one atomic action
  of one goroutine or of the environment, `Enabled` says when it can happen, `Next` what it
  does, and any sequence of enabled steps is a run. Clocks, sockets, the API server, the
  platform and the scheduler are environment choices.

| module | models |
|---|---|
| `Session`, `SessionInvariants`, `SessionTheorems`, `Answers`, `Starts`, `Shutdown` | `App.Run`, `Client.Run` and `serveConnection` as one machine: main goroutine, read loop, heartbeat loop, command goroutines, write mutex, semaphore, wait groups, error channel, replay map, health flags |
| `GatewayClient`, `Reconnect` | the dial/serve/back-off loop with its timing, and the `Backoff` class |
| `Replay` | `claimCommand`: the `seenCommands` map against the whole history of accepted claims |
| `Api`, `Router`, `FanOut` | the policy check, the router's gate in front of every Kubernetes call, the errgroup fan-out |
| `Guard`, `Csv`, `Config` | the namespace guard, the comma-separated lists it is built from, validation |
| `NamespaceCache` | the namespace cache with single flight |
| `Auth`, `Registration`, `App` | identities, the re-registration loop, the rotation loop |
| `Events`, `Redaction` | top-k event selection, secret redaction |
| `Text`, `Seqs`, `Sets`, `Clock`, `Wrappers` | string order, the `sort` contract, sequences as multisets, set sizes, durations, result types |

Time is in nanoseconds. Strings are sequences of characters; Go compares bytes, and UTF-8 keeps
the order. Action names, namespace modes and message types are enumerations with a case for
every other string, because the code only compares them with constants.

Where the code and its documentation or comments differ, the model follows the code:

- README.md:102 says system namespaces are always blocked. Any denylist value but the empty one
  replaces the default, even one that holds no name, so they are always blocked exactly when the
  value is empty or names all three (`Guard.SystemNamespacesBlocked`); a chart denylist of one
  blank lifts the block (`Guard.BlankDenylistBlocksNothing`).
- The replay window spaces the claims of a client, and a command starts when it gets a slot. So
  an id is claimed at most once in ten minutes (`Starts.ClaimsSpaced`), but two handlers of one
  id can run at the same time unless only one handler can run at all
  (`Starts.OneHandlerPerIdExactly`), and starts are kept apart by ten minutes less the longest
  wait for a slot, exactly (`Starts.IdsApartExactly`).
- README.md:69 says an empty allowlist means all non-system namespaces. The guard would check
  that way but its inventory would be empty, and validation rejects an empty allowlist
  (`Guard.InventoryAgreesWithCheck`, `Config.Validate`).
- app.go:162 keeps one rejected registration token. A rejected token is spent again exactly when
  another rejection has followed its own (`Registration.ResubmittedExactly`;
  `Registration.SecondRejectionForgetsFirst` is an instance).
- A secret that overlaps the mask can survive redaction; `Redaction.RedactionExact` says
  exactly which secrets can.

`dafny verify dfyconfig.toml` checks the whole project.

## Model
| member | source | states |
|---|---|---|
| SessionTheorems.ReadyExactly | internal/telemetry/prometheus.go:12-23 | In every reachable state the agent is ready exactly while a session lives on which a written heartbeat has been announced; while dialing, sleeping, waiting for credentials or after exit it is not, so a late heartbeat never resurrects readiness |
| SessionTheorems.HeartbeatMakesReady | internal/gateway/client.go:209-211 | Announcing a heartbeat makes the agent ready |
| SessionTheorems.EntersExactly | internal/app/app.go:75-98 | The agent waits for new credentials exactly after a refused handshake or a policy close, sleeps exactly after a failed dial or another failure, dials again exactly after that sleep or with a new client and its empty replay map, and exits only when stopped |
| SessionTheorems.ShutdownJoinsEverything | internal/gateway/client.go:176-187 | Whenever no session is being served, every goroutine of the last one is gone, the write mutex and all slots are free and both wait groups are at zero |
| SessionTheorems.NoAddDuringWait | internal/gateway/client.go:185-186 | Once waiting for the command goroutines has begun, no `wg.Add` and no new goroutine can happen in any interleaving |
| SessionTheorems.NoStuckSession | internal/gateway/client.go:169-175 | If a loop has ended or the parent is cancelled, the select that waits for it has a ready case |
| SessionTheorems.NoErrorDropped | internal/gateway/client.go:327-335 | The default branch of the error report is unreachable: the two-slot channel is never found full |
| SessionTheorems.SemaphoreAccounting | internal/gateway/client.go:242-252 | Slots taken are the goroutines still holding one plus the read loop between acquire and start; the wait group never undercounts them; no release or `Done` finds its counter at zero |
| SessionTheorems.HandlersBounded | internal/gateway/client.go:75-79 | At most the configured number of handlers run at once, or eight where none is configured |
| Starts.HandlersAttained | internal/gateway/client.go:75-79 | For every configuration some run has that many, up to the 4096 the replay window lets start at once |
| Session.Capacity | internal/gateway/client.go:76-79 | Whatever is configured, at least one command can run; every session's semaphore has this size |
| SessionTheorems.CommandConservation | internal/gateway/client.go:216-253 | Every decoded command is denied, refused, abandoned, finished, in flight or in the read loop's hands; at most one per session is abandoned |
| SessionTheorems.OneAnswerEach | internal/gateway/client.go:314-325 | No command is answered twice on a session, and each answer carries its own command's id |
| Answers.EveryCommandAnswered | internal/gateway/client.go:216-253 | Over every run of a session, commands are decoded in the order they arrived with none skipped; each is on the wire, in the read loop's hands or with a goroutine yet to write, exactly unless its response did not encode, its write failed, or it was abandoned; once the session is over, on the wire exactly unless so |
| Answers.AnsweredRightly | internal/gateway/client.go:228-237 | An answer is a policy refusal exactly if the policy does not allow its command, a duplicate refusal exactly if its claim was refused, a result exactly if it was granted |
| Answers.FirstFailureDecides | internal/gateway/client.go:169-175 | A failed read or heartbeat ends its loop and only such failures are reported; unless the agent is stopped, the one reported first decides whether it waits for new credentials or sleeps |
| SessionTheorems.OneWriter | internal/gateway/client.go:379-384 | At most one goroutine is inside a data write, and it is the one that holds the write mutex |
| Starts.ClaimsSpaced | internal/gateway/client.go:294-312 | Across all sessions of any one client an id is claimed at most once, and at most 4096 commands are claimed, in any closed ten-minute interval |
| Starts.StartsClaimed | internal/gateway/client.go:234-252 | Every start spends a claim of its own client, made no later; clients start in claim order; every goroutine has a start of its own, under its command's id |
| Starts.StartsApart | internal/gateway/client.go:242-252 | Two starts of one id, and the first and last of 4097 starts of one client, are more than ten minutes apart less what the first of them waited for its slot |
| Starts.IdsApartExactly | internal/gateway/client.go:242-246 | If no start comes more than a given time after its claim, that distance is the best there is; so an id starts at most once in ten minutes exactly when starts never wait |
| Starts.WindowsApartExactly | internal/gateway/client.go:242-246 | The same for the rate of starts, attained by a run of 4097 commands |
| Starts.OneHandlerPerIdExactly | internal/gateway/client.go:242-252 | Two handlers of one id never run at the same time exactly when the bound on handlers is one |
| Starts.HandledTwice | internal/gateway/client.go:242-252 | A run in which two handlers of one id do: the first command waits out its own replay window for a slot |
| SessionTheorems.EveryCallConfined | internal/gateway/client.go:228-232 | Whatever the gateway sent and however goroutines interleaved, every Kubernetes call made stays within its command's policy and the guard |
| SessionInvariants.StepKeepsInv | internal/gateway/client.go:150-254 | The conjunction of all invariants (wiring, counts, locks, errors, readiness, jobs, answers, claims, calls) is kept by every step of every goroutine and of the environment |
| Shutdown.StepWindsDown | internal/gateway/client.go:184-187 | After the socket is closed every step that is not idle strictly reduces the remaining work, and the session can only move to its return |
| Shutdown.NeverStuck | internal/gateway/client.go:184-187 | After the socket is closed some goroutine can always make progress until `serveConnection` returns: no deadlock on mutex, semaphore or wait groups |
| Shutdown.EverySessionReturns | internal/gateway/client.go:150-188 | In every schedule a closed session takes a bounded number of further steps, always has one to take, and can reach its return |
| Shutdown.MainNeverHeldUp | internal/gateway/client.go:169-187 | Whatever the main goroutine is ready to do, no other goroutine and no environment step can take away |
| Shutdown.ReadySelectReturns | internal/gateway/client.go:169-188 | From the moment a loop has ended or the agent is stopped, `serveConnection` can return within a stated number of steps |
| GatewayClient.RunClient | internal/gateway/client.go:105-148 | The reconnect loop computes the specified outcome, number of waits and elapsed time for every script |
| GatewayClient.Attempt | internal/gateway/client.go:107-147 | One pass of the loop does what the specification says with the backoff, for every environment answer |
| GatewayClient.RetryRate | internal/gateway/client.go:106-146 | In any run n completed waits take at least 45n/4 - 30 seconds |
| GatewayClient.RetryRateTight | internal/gateway/client.go:138-142 | For every m some run with 4m + 4 waits attains that bound exactly |
| GatewayClient.NthWait | internal/gateway/client.go:138-146 | In every run the k-th wait since the last session of 30 seconds or more, however that one ended, is min(1s * 2^(k-1), 30s) plus less than half of it, plus the timer's lateness |
| GatewayClient.StableResets | internal/gateway/client.go:138-142 | So the wait after such a session is at least 1 and under 1.5 seconds |
| GatewayClient.EndTakes | internal/gateway/client.go:108-121 | The round that ends a run adds exactly what was spent in it |
| GatewayClient.RunEnds | internal/gateway/client.go:108-137 | A run is over at the first round that stops or revokes it; it is revoked exactly by a 401/403 handshake or a policy-violation close |
| Reconnect.ClosedForm | internal/gateway/reconnect.go:23-35 | After k calls the base delay is min(Min * 2^(k-1), Max) |
| Reconnect.NthMonotone | internal/gateway/reconnect.go:23-35 | The least delay never shrinks until a reset |
| Reconnect.Backoff.Next | internal/gateway/reconnect.go:23-35 | The delay lies in [current, current + current/2), the jitter bound is positive, and `current` follows the closed form |
| Reconnect.Backoff.Reset | internal/gateway/reconnect.go:19-21 | The schedule starts over |
| Replay.ReplayGuard.ClaimCommand | internal/gateway/client.go:294-312 | The verdict and the new map are those of the specification, and the map keeps summarising the full history of accepted claims |
| Replay.ReplayGuard.Prune | internal/gateway/client.go:298-302 | Deleting while ranging leaves exactly the entries not older than ten minutes, in any order of visits |
| Replay.ClaimTracks | internal/gateway/client.go:294-312 | After any claim the pruned map equals the accepted log restricted to the last ten minutes, ids stay spaced and the rate stays bounded |
| Replay.RefusedExactly | internal/gateway/client.go:303-309 | A claim is refused exactly when its id was accepted in the last ten minutes or 4096 claims were |
| Router.Confinement | internal/commands/router.go:45-289 | Any call a command lets through both filters can make names a non-empty namespace that passes the guard and is covered by the policy; logs only when enabled, with a tail in 1..max |
| Router.ReadServedIffConfined | internal/gateway/client.go:256-292 | A well-formed read of one namespace reaches Kubernetes exactly when that confinement covers it, and then as asked: nothing allowed is refused |
| Router.LogsServedIffConfined | internal/commands/router.go:124-150 | The same for pod logs; and the call made is for the namespace, pod and container asked for, with the tail asked for, the default where none was, capped at the maximum |
| Router.FanOutCoverage | internal/commands/router.go:79-86 | A listing without a namespace, with or without params, reads every allowed namespace and nothing else, and passes the policy check exactly under an active "all" policy |
| Router.NamespaceDeniedExactly | internal/commands/router.go:76-78 | A command is answered "namespace denied" exactly when the guard is the one thing in its way |
| Router.ClusterReads | internal/commands/router.go:47-69 | Listing namespaces answers the guard's own inventory under any active policy and asks Kubernetes nothing; discovery needs no policy and is the one call without a namespace |
| Router.RefusalCodes | internal/commands/router.go:28-38 | Each of the other three refusal codes, exactly when it is given |
| Router.HandleAnswers | internal/commands/router.go:28-43 | Every response carries its command's id; a refusal does not depend on Kubernetes; and what each outcome of the planned calls is answered as |
| FanOut.FanOutSound | internal/commands/router.go:293-331 | In every schedule a success is the sequential result in namespace order; a failure is a task's own error or the caller's cancellation, never the group's own |
| FanOut.FanOutMatchesSequential | internal/commands/router.go:293-331 | While the caller does not cancel, success and its items do not depend on the schedule |
| FanOut.FirstErrorWins | internal/commands/router.go:321-323 | The error returned is the one that reached the group first |
| FanOut.StepKeepsInv | internal/commands/router.go:302-320 | Each task writes only its own slot, and a failed task is over only after an error has been recorded |
| FanOut.Append | internal/commands/router.go:324-330 | The two append loops flatten the slots in order |
| Guard.NewNamespaceGuard | internal/security/allowlist.go:32-48 | The guard's sets are the non-empty names given, with the system namespaces for a nil denylist |
| Guard.AllowedNamespaces | internal/security/allowlist.go:16-25 | The result is the strictly ascending, duplicate-free listing of allowlist minus denylist, and agrees with `Check` |
| Guard.InventoryAgreesWithCheck | internal/security/allowlist.go:50-64 | The inventory lists exactly the namespaces that pass the check if and only if the allowlist is not empty |
| Guard.ConfiguredGuard | deploy/helm/templates/configmap.yaml:13-14 | From the chart's two lists, whatever they hold, to the fan-out: exactly the allowed names that are not denied, with the system namespaces for a denylist that joins to nothing |
| Guard.SystemNamespacesBlocked | internal/security/allowlist.go:8-12 | For every denylist value: system namespaces are blocked under every allowlist exactly when the value is empty or names all three |
| Guard.BlankDenylistBlocksNothing | internal/config/config.go:151-164 | A denylist of one blank, which the chart accepts, lets every system namespace through |
| Csv.SplitCsv | internal/config/config.go:151-164 | The loop yields the trimmed non-empty parts; nil exactly for the empty value |
| Csv.NamesJoin | deploy/helm/templates/configmap.yaml:13-14 | Of any list at all, joined by the chart, the agent reads back the names its items hold, one after the other |
| Csv.RoundTrip | deploy/helm/templates/configmap.yaml:13-14 | Any list of non-empty, trimmed, comma-free names survives the chart's join and the agent's split |
| Csv.PaddedRoundTrip | internal/config/config.go:151-164 | So does any such list with blanks around its items, without the blanks |
| Csv.NamesProper | internal/config/config.go:151-164 | Any value splits into proper names, and joining and splitting again changes nothing |
| Config.Validate | internal/config/config.go:72-106 | A configuration is accepted exactly when both URLs, the allowlist and the limits are in order; for each of the six errors, exactly when it is returned, and which settings the missing-settings error names |
| Config.BuildRouter | internal/app/app.go:67-73 | A router exists only for a valid configuration, has the guard of the two configured values, and meets what the confinement proofs ask of it |
| NamespaceCache.CacheCoherent | internal/kube/namespaces.go:10-47 | In every interleaving at most one list call is in flight, and every successful answer is a list the API returned: stored, and then found in the cache non-empty, less than 30 seconds later and with nothing stored since, or shared by a flight still registered when the caller entered it |
| NamespaceCache.StepKeepsInv | internal/kube/namespaces.go:29-47 | The state stays what the steps taken so far have made it, and the cached-at time never goes back |
| NamespaceCache.ServedFromCacheExactly | internal/kube/namespaces.go:11-16 | A caller is answered from the cache exactly when the last stored list is non-empty and under 30 seconds old, and then with that list |
| NamespaceCache.NobodyStranded | internal/kube/namespaces.go:19-22 | A caller waiting on a flight has its outcome to collect, or the flight can still move |
| NamespaceCache.CollectsTheAnswer | internal/kube/namespaces.go:19-26 | In every run a caller that collects gets what the API answered the flight it entered: its list, whoever led it, or its failure |
| NamespaceCache.FailureShared | internal/kube/namespaces.go:23-25 | In every run, a flight that the API failed stores nothing, and whoever entered it still waits or has got the error |
| NamespaceCache.ErrorsComeFromTheApi | internal/kube/namespaces.go:23-25 | And whoever got an error had entered a flight that the API failed |
| Registration.WaitForNewRegistration | internal/app/app.go:161-199 | The two nested loops produce the specified trace of submissions and saves for every script |
| Registration.SaveUntilDone | internal/app/app.go:178-188 | The inner loop only retries saving |
| Registration.ReRegistration | internal/app/app.go:161-199 | A rejected token is not submitted again until a different one has been rejected; after the first complete registration only saving is retried; a normal return means that very identity was bought, is complete and was saved last |
| Registration.FreshTokenRegisters | internal/app/app.go:170-181 | A new token the platform accepts always ends the wait, whatever was rejected or failed before |
| Registration.PollingSplits | internal/app/app.go:161-199 | However long the wait has gone on, all that follows depends only on the token rejected last |
| Registration.SubmittedExactly | internal/app/app.go:170-171 | A round that is reached submits its token exactly when it has one other than the token rejected last |
| Registration.ResubmittedExactly | internal/app/app.go:190-192 | A token that was rejected is spent again, when on offer, exactly when another rejection has followed its own last one |
| Registration.SecondRejectionForgetsFirst | internal/app/app.go:190-192 | An instance: two tokens in turn |
| Registration.RetriedAfterFailure | internal/auth/registration.go:30-35 | After no answer, a 5xx, a 429 or a body without a token the next round submits the same token again |
| Registration.StopEndsIt | internal/app/app.go:163-166 | A wait stopped in a round it has reached ends there, with nothing more submitted or saved |
| Registration.SavingEnds | internal/app/app.go:178-188 | Saving ends with the first attempt that works, or the first wait after a failed one that is cancelled |
| Auth.StartIsComplete | internal/app/app.go:101-130 | Every identity the agent starts with has both an id and a token, although validity only asks for a token |
| Auth.StoredCredentialsWin | internal/app/app.go:101-108 | Complete stored credentials are used, whatever else the start-up holds |
| Auth.StartExactly | internal/auth/bootstrap.go:14-36 | A start succeeds exactly with stored credentials, or with an empty Secret, write access and a token when the Secret has been filled meanwhile or the registration is granted and saved; and which identity results |
| Auth.JudgedExactly | internal/auth/registration.go:30-35 | A refusal is final exactly for a 4xx other than 429; incomplete exactly without an agent id; granted exactly with both |
| App.RunApp | internal/app/app.go:55-98 | Nothing runs without a starting identity; with one, the specified sequence of clients runs for every script |
| App.ServeClients | internal/app/app.go:75-98 | The rotation loop produces exactly the specified sequence of clients for every script |
| App.WaitForUpdatedCredentials | internal/app/app.go:135-148 | The polling loop computes the specified result |
| App.RotationFound | internal/app/app.go:135-148 | The wait ends with the first Secret holding complete credentials under another token, and gives up exactly where it is cancelled before that |
| App.RotationTrace | internal/app/app.go:75-98 | Every client has complete credentials, consecutive clients never share a token, each successor is the one the wait found, and each replaced client ended on a 401/403 handshake or a 1008 close |
| App.EarlierTokenReturns | internal/app/app.go:141-143 | Only the token just revoked is avoided: a client takes up any earlier client's token exactly when its predecessor was revoked and the first usable Secret carries it |
| App.EndingExactly | internal/app/app.go:93-98 | The run is shut down exactly when the last client was stopped or its wait cancelled, and waiting exactly when that wait has found nothing yet |
| Events.SortAndLimitEvents | internal/kube/describe.go:175-189 | The kept events are ordered, drawn from the input, of size min(limit, n), and nothing dropped outranks anything kept; the slice is sorted in place |
| Events.FetchPodEvents | internal/kube/describe.go:133-156 | The primary path selects among what the server returned, the fallback among what the in-process filter keeps, and two failures give nothing |
| Events.TopKeysUnique | internal/kube/describe.go:175-189 | Any two right selections show the same ranks position by position, whatever the sorting algorithm does with ties |
| Events.WarningsFirstThenNewest | internal/kube/describe.go:176-184 | Warnings come before the rest and newer events before older ones of their kind, among those kept and between kept and dropped |
| Events.MatchingExactly | internal/kube/describe.go:149-153 | The fallback keeps each event of the pod as often as it was listed, and no other |
| Events.PathsAgree | internal/kube/describe.go:133-156 | If the field selector means the in-process filter, both paths show the same ranks |
| Redaction.Redact | internal/security/redaction.go:7-16 | The loop replaces the non-empty secrets one after the other |
| Redaction.ReplaceCuts | internal/security/redaction.go:13 | One replacement cuts the text at the secret, leftmost first, and puts masks between the same pieces |
| Redaction.RedactionComplete | internal/security/redaction.go:7-16 | A listed secret that does not clash with the mask is absent from the output, whatever the other secrets and their order |
| Redaction.RedactionExact | internal/security/redaction.go:5-16 | A secret is never left behind, for all texts and all lists, exactly when it does not clash with the mask |
| Redaction.RedactionHarmless | internal/security/redaction.go:7-16 | A text in which no secret occurs is returned unchanged |

## Left out
- Sockets, TLS, HTTP, JSON and client-go: environment answers in the scripts and steps.
- Tracing, logging, metrics, version strings and the metrics server: they affect none of the claims.
- Shutdown.ReadySelectReturns: the close frame is one step; its one-second deadline, for which it may wait behind a writer, is not modelled.
- Timing inside the session machine: the wait and the dial may take any time there; `GatewayClient` carries the timing.
- Errgroup, singleflight and socket library internals: only their step-level contracts are modelled (first error recorded before the group is cancelled; one registered call per key; a closed socket fails writes).
- The health flags and the namespace cache are fields of values that steps replace, since several goroutines share them; aliasing is not captured.
- Reconnect.Backoff.Next: integer doubling instead of the float multiply; the two agree below 2^53 nanoseconds, and the agent uses 1 to 30 seconds.
- Events.TopKeysUnique: ranks compare the printed timestamps as the code does; whether that order is chronological across time zones is not modelled.
- Auth.StartIsComplete: the Secret's contents are an environment answer; updating it through the API server is not modelled.
- `dispatch`'s loops that copy listed items into response maps, `NamespaceGuard.Filter`, `GetPodLogs`, `TruncateLog`, rollout status and the pod description: field copying.
- Deadlines inside a handler: a handler may return at any time and is assumed to return in the end.
