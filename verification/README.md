# Verified models of the platform's small stateful components

This project models ten components of the hosting platform in Dafny and proves what they are
relied on for. Each component is a module (or two) of its own:

| component | modules |
|---|---|
| napd, the tier sleep/wake daemon | `NapdProtocol`, `NapdRuns`, `NapdAnswers`, `NapdVisits`, `NapdTraces`, `NapdDaemon` |
| edge sidecar: allow-list, secret, tokens | `HotReload`, `EdgeSidecar`, `Base64Url`, `EdgeJwt` |
| Redis cache with local fallback | `FallbackCache` |
| Loki-to-file bridge | `LokiBridge`, `LokiLoop` |
| lite-agent registrar | `AgentRegistrar` |
| VPS autoscaler | `Autoscaler`, `AutoscalerBudget`, `AutoscalerApply` |
| Sentinel singleton | `SentinelSingleton` |
| paid-plan activation | `Billing`, `BillingLock` |
| PgCat configuration renderer | `PgcatConfig`, `PgcatReading`, `PgcatText`, `PgcatTables` |
| template fixture generator | `TemplateFixture` |

`Wrappers`, `Strings` and `Decimal` are shared helpers. `dafny verify dfyconfig.toml` checks
everything.

Code that runs concurrently (napd, the hot reload, the Sentinel singleton, the row lock) is a
state machine: a `Step` for every atomic action of an actor or of the environment, `Enabled` and
`Apply`, and runs of any length in any interleaving. Code that updates state on one thread is a
class or a method with loops, proved against a function of its inputs or of its old state. Docker,
Redis, Loki, HTTP and the clock enter as nondeterministic steps or as parameters; HMAC, JSON and
the Unicode tables are uninterpreted functions.

## What the proofs brought to light

The model follows the code. These are the places where the code does something that its
documentation, or a first reading, does not suggest, with the lemmas that say so.

- napd reads a tier's last wake before it takes the tier's mutex (`napd/main.go:394-406`), and boot
  seeding takes no mutex at all (`napd/main.go:481-489`). A tier can therefore be stopped at the
  very instant of its last wake: `NapdTraces.WakeRacesReaper` and `NapdTraces.SeedRacesReaper` give
  the runs. `NapdRuns.EarlyReapExactly` says exactly when a tier is stopped inside its window: when
  such a write, less than a window old, fell between the read and the TryLock, or was a boot seeding
  after that.
- napd multiplies the idle seconds by a second in 64 bits (`napd/main.go:400`). The window is the
  configured one exactly up to 9223372036 seconds; one second more wraps to a negative window, which
  is due at once (`NapdRuns.WindowIsExact`, `NapdRuns.WindowWraps`).
- The wait loop of a wake of T seconds polls at most ceil(T/3) + 1 times if the request's context
  ends on time, and at most floor(T/3) + 2 times otherwise (`NapdDaemon.WaitAwake`); both bounds are
  attained (`NapdDaemon.OnTimeBoundIsAttained`, `NapdDaemon.LateBoundIsAttained`). The second holds of
  every handler in every interleaving (`NapdRuns.PollsAreBounded`).
- The cache takes every exception for an outage: incrementing a key that Redis does not hold
  degrades it although Redis is up (`FallbackCache.MissingKeyDegrades`); a healthy run is Redis alone
  exactly when no operation raises on its own account (`FallbackCache.HealthyRunIsRedisAlone`).
- The bridge's two jobs share one cursor, so the second job misses lines
  (`LokiBridge.SecondJobMissesExactly` says which, `LokiLoop.FilesHoldExactly` what the files then
  hold). Its `max` compares strings, which is the latest time exactly when no timestamp has more
  digits than the maximum (`LokiBridge.LatestExactly`); otherwise, and only then, later rounds can
  fetch lines of the answer again (`LokiBridge.FetchedAgainExactly`, `LokiBridge.WidthsMatter`).
- Eight exhausted rounds of the registrar sleep 183 seconds, not about 127 as the comment says
  (`AgentRegistrar.EightRoundsSleep183`).
- Two services of the shipped autoscaler table get fewer workers at medium demand than at low demand
  (`Autoscaler.ShippedTargets`). A Gunicorn container without workers is never scaled up, because
  `pgrep -c` then prints a count and the fallback prints another (`AutoscalerApply.ReadingIsExact`).
  The bound on the Daphne memory holds exactly when the budget is not negative
  (`AutoscalerBudget.DaphneBudgetExactly`).
- A child forked while another thread is inside `get_sentinel` starts with a lock that nobody
  releases, and no call in it ever returns (`SentinelSingleton.OrphanNeverGetsAnInstance`).
- The PgCat renderer quotes its values without escaping, so a value with line breaks can put further
  `pool_size` lines into the text of the file. `PgcatText.FileKeepsBudgetExactly` says, for all
  values, exactly when the text still holds the checked budget and the same users in both pools;
  `PgcatText.LineBreakAddsSize` gives a password for which it does not.
- Go's base64url decoder skips line breaks and ignores left-over bits, so different texts decode to
  the same bytes; `Base64Url.EncodeDecode` says exactly which texts are the canonical ones.

## Model

| member | source | states |
|---|---|---|
| NapdProtocol.InvReachable | napd/main.go:130-142 | in every reachable state different tiers have different mutexes, every actor's mutex is still the one its tier maps to, and a mutex is locked exactly by the actor between its Lock and its Unlock |
| NapdRuns.OneMutexPerTier | napd/main.go:130-142 | one tier name maps to one mutex for the whole run, and no other tier maps to it |
| NapdRuns.ScriptsNeverOverlap | napd/main.go:310-375 | two different actors never hold the mutex of one tier together; in particular its `up` and `down` scripts never overlap |
| NapdRuns.ReaperHistory | napd/main.go:380-421 | whatever the reaper's program counter, the steps that led there are in the run, all of one visit: the choice of an autosleep tier with a positive window, the read of its last wake, the idle check, the successful TryLock, and possession of the mutex ever since |
| NapdRuns.ReaperStopsOnlyIdleTiers | napd/main.go:380-421 | the reaper starts `down` only for an autosleep tier with positive idle seconds that was due by the last wake it read and that it saw awake under the tier's mutex, held without a break |
| NapdRuns.LockKeepsWakesOut | napd/main.go:321-321 | while the reaper holds the mutex only boot seeding can change the tier's last wake |
| NapdRuns.NoRaceNoEarlyReap | napd/main.go:394-417 | without a write between the reaper's read and its TryLock, and without boot seeding of the tier after that, the value read is the newest wake and a whole window has passed since |
| NapdRuns.EarlyReapExactly | napd/main.go:394-417 | the reaper stops a tier less than a window after its last wake if and only if a write of the last wake, less than a window old, fell between the reaper's read and its TryLock, or was a boot seeding after that |
| NapdTraces.WakeRacesReaper | napd/main.go:394-406 | a concrete run in which a wake starts and is answered ok between the reaper's read and its TryLock of the same tier, and the reaper's `down` starts at the very instant of that wake |
| NapdTraces.SeedRacesReaper | napd/main.go:463-492 | a concrete run in which boot seeding writes the last wake after the reaper's TryLock, and the reaper's `down` starts at the instant of that write |
| NapdRuns.WindowIsExact | napd/main.go:400-400 | the int64 window equals the configured seconds if and only if they are at most 9223372036 |
| NapdRuns.WindowWraps | napd/main.go:400-400 | one second more makes the window negative |
| NapdRuns.DownIsAllowed | napd/main.go:360-391 | napd never stops a tier whose file did not opt in when it was read, unless the request said force=1 |
| NapdAnswers.SleepAnsweredExactly | napd/main.go:360-375 | in every interleaving a sleep handler is answered ok if and only if its own `down` succeeded: whatever the answer, its last steps before it are the beginning and the end of its only `down`, with that result, and it held its tier's mutex from the one to the other |
| NapdVisits.ReaperStopsExactly | napd/main.go:380-421 | undisturbed, an idle reaper stops a tier on its visit if and only if the file opts in with a positive window, the last wake is set and lies a window back, a service runs and the mutex is free |
| NapdVisits.StopsIt | napd/main.go:380-421 | after such a visit the reaper is idle again and nothing else has changed but the tier's entry in the mutex map, whether the script worked or not |
| NapdVisits.SleepRuns | napd/main.go:341-376 | undisturbed, a sleep request of a tier that opted in, or a forced one, runs `down` under the mutex if that is free, and is answered as it ends |
| NapdVisits.AdmittedExactly | napd/main.go:301-362 | a request reaches the tier's mutex exactly if the tier is configured and, to sleep, opted in or forced, or, to wake, has a timeout of 10 to 600 seconds |
| NapdVisits.WakeRuns | napd/main.go:287-338 | undisturbed, a wake of a configured tier one of whose services then runs is answered ok at its first poll, and its time is the tier's last wake |
| NapdAnswers.SeedIsJustified | napd/main.go:463-492 | boot seeding marks only configured tiers with a service that ran when it looked, with the time of the write |
| NapdRuns.WakeHistory | napd/main.go:316-338 | since a waiting handler's own `up` succeeded no `down` of the tier has run, and the tier's last wake is at least as new |
| NapdRuns.WakeAnsweredOk | napd/main.go:310-338 | a wake answered ok saw a service of its tier running, no napd `down` of the tier ran between its own `up` and the answer, and the tier's last wake is at least as new as that `up` |
| NapdAnswers.WakeAnsweredExactly | napd/main.go:310-338 | in every interleaving a wake is answered ok exactly when its last step is a probe that saw a service of the tier, and otherwise because its own `up` failed, the clock was past the deadline it set T seconds after its `up`, or its context had ended |
| NapdAnswers.WaitsThreeSeconds | napd/main.go:322-338 | a waiting handler has just found its deadline not passed, and goes on three seconds after that and no earlier, unless its context ends |
| NapdRuns.PollsAreBounded | napd/main.go:322-338 | in every interleaving a wake handler with a timeout of T seconds polls Docker at most floor(T/3) + 2 times |
| NapdDaemon.Daemon.constructor | napd/main.go:209-218 | the daemon starts with the wakes of a readable state file, and with no mutex |
| NapdDaemon.Daemon.TierLock | napd/main.go:130-142 | returns the tier's mutex, a fresh one if there was none, changes no other entry and never gives one mutex to two tiers |
| NapdDaemon.Daemon.MarkWake | napd/main.go:194-207 | sets the tier's last wake, and replaces the state file by the whole map only if both the write and the rename succeed |
| NapdDaemon.Daemon.SeedBoot | napd/main.go:463-492 | exactly the tiers with a running service get a last wake, one of the times read for them; all other entries stay |
| NapdDaemon.Awake | napd/main.go:184-192 | true exactly when some service of the tier is running |
| NapdDaemon.Timeout | napd/main.go:306-309 | the timeout is 120 seconds if none is given, and else the given number brought to the nearest of 10 to 600 |
| NapdDaemon.WaitAwake | napd/main.go:322-338 | the loop ends with the first round that sees the tier awake, the deadline passed or the context ended, and answers ok exactly when that round saw it awake; with the two bounds on the number of polls |
| NapdDaemon.LateBoundIsAttained | napd/main.go:322-338 | for every timeout of T seconds floor(T/3) + 2 polls happen when the context ends late |
| NapdDaemon.OnTimeBoundIsAttained | napd/main.go:322-338 | for every timeout of T seconds ceil(T/3) + 1 polls happen when the context ends on time but is not noticed during a wait |
| HotReload.CellMatchesFile | edge-sidecar/main.go:59-92 | whenever the cached mtime is the file's, the cached value is the decoded file, though writers may come between stat and read |
| HotReload.MtimeNeverDecreases | edge-sidecar/main.go:59-92 | the cached mtime never decreases, and the value changes only together with it |
| HotReload.CellWasWritten | edge-sidecar/main.go:59-92 | every cached value is the initial one or the decoding of something that was the file's content |
| HotReload.OnePollSettles | edge-sidecar/main.go:59-92 | once writes have stopped, one poll caches a well-formed file under its mtime, and leaves everything as it was for a malformed or missing one |
| HotReload.NeverDecodedNeverReturns | edge-sidecar/main.go:121-148 | a value that no content decodes to is never cached again once it is gone |
| EdgeSidecar.AllowList.ReloadIfChanged | edge-sidecar/main.go:59-92 | a newer file that can be read and decoded replaces set and mtime, the set holding exactly the non-empty normalised entries; in every other case both stay |
| EdgeSidecar.SecretHolder.ReloadIfChanged | edge-sidecar/main.go:121-148 | a newer file that is not blank replaces secret and mtime, without the white space at its ends; in every other case both stay |
| EdgeSidecar.SecretIsTrimmed | edge-sidecar/main.go:140-143 | the secret read is exactly the file's content without white space at its ends, and there is none exactly for a file of white space |
| EdgeSidecar.NormaliseMeaning | edge-sidecar/main.go:83-83 | normalising takes off one trailing dot, then white space at both ends, and lowers the letters |
| EdgeSidecar.NormaliseExactly | edge-sidecar/main.go:95-95 | and that determines the normal form |
| EdgeSidecar.AllowList.Allowed | edge-sidecar/main.go:94-112 | admits exactly the hosts whose normalised form is non-empty and is in the set, or has a dot with "*." plus the text after it in the set |
| EdgeSidecar.SuffixIsAfterDot | edge-sidecar/main.go:105-110 | joining the labels from the i-th on gives the text after a dot of the host |
| EdgeSidecar.AfterDotIsSuffix | edge-sidecar/main.go:105-110 | the text after every dot of the host is obtained this way |
| EdgeSidecar.AnswersFollowFile | edge-sidecar/main.go:59-112 | in every run, while the cached mtime is the file's, a host is admitted exactly when a normalised entry of the file covers it |
| EdgeSidecar.SecretStays | edge-sidecar/main.go:121-148 | the secret never goes from non-empty to empty |
| Base64Url.DecodeEncode | edge-sidecar/main.go:191-202 | decoding undoes unpadded base64url (section 5 of RFC 4648) for every byte string, and the encoding stays in the alphabet |
| Base64Url.EncodeDecode | edge-sidecar/main.go:191-202 | a decodable text is the encoding of what it decodes to if and only if it has no line break and its left-over bits are zero |
| Base64Url.DecodesExactly | edge-sidecar/main.go:191-202 | line breaks aside, a text decodes if and only if it is in the alphabet and its length is not one more than a multiple of four |
| Base64Url.EncodeInDigits | edge-sidecar/main.go:191-202 | three bytes are written as the four base-64 digits of their number, in the alphabet of section 5 of RFC 4648 |
| Base64Url.EncodeTwoInDigits | edge-sidecar/main.go:191-202 | two bytes left over are written as if two zero bits followed |
| Base64Url.EncodeOneInDigits | edge-sidecar/main.go:191-202 | one byte left over as if four zero bits followed |
| EdgeJwt.ParseCompact | edge-sidecar/main.go:186-204 | parsing undoes the compact serialisation (section 7.1 of RFC 7515) of any three byte strings, and the MAC input is then the signing input of section 5.2 |
| EdgeJwt.MacCoversAllButSignature | edge-sidecar/main.go:226-245 | for every token that parses, the text given to the MAC is the token's text before its last dot, and the signature is what the text after it decodes to |
| EdgeJwt.AcceptedExactly | edge-sidecar/main.go:206-272 | a request is accepted for a user and scope if and only if the method is right, a secret is set, and the header carries three dot-free parts with an HS256 header, unexpired claims of that user and the right MAC |
| EdgeJwt.RefusedExactly | edge-sidecar/main.go:206-272 | which refusal a request gets: a wrong method, no secret, or anything else that is not a genuine token |
| EdgeJwt.BearerRoundTrip | edge-sidecar/main.go:216-225 | the token is recovered from the header with or without "Bearer " in any letter case, and any white space around and between |
| EdgeJwt.IssuedTokenAccepted | edge-sidecar/main.go:206-272 | every token issued with the shared secret, by the rules of RFC 7515, is accepted with its user and scope |
| FallbackCache.FallbackRedisCache.constructor | backend/config/fallback_redis_cache.py:33-39 | the cache starts healthy, with an empty fallback and no failure on record |
| FallbackCache.FallbackRedisCache.ShouldAttemptReconnect | backend/config/fallback_redis_cache.py:85-88 | Redis is tried again exactly when the cache is degraded and at least 60 seconds have passed since the last failure |
| FallbackCache.FallbackRedisCache.CallWithFallback | backend/config/fallback_redis_cache.py:105-124 | one call ends in the state and with the answer of `Step`: Redis's reply if Redis is tried and does not raise, else the fallback's |
| FallbackCache.FallbackIsReplay | backend/config/fallback_redis_cache.py:105-159 | in every run the fallback's content and replies are those of a plain map that executes exactly the calls it answers, each once, in order |
| FallbackCache.RedisIsReplay | backend/config/fallback_redis_cache.py:105-124 | in every run Redis sees exactly the calls for which it is tried, each once, and its content and replies are those of Redis executing them alone |
| FallbackCache.HealthyRunIsRedisAlone | backend/config/fallback_redis_cache.py:105-124 | while Redis works, it answers every call if and only if no operation raises by itself, and then replies and final content are those of Redis alone |
| FallbackCache.MissingKeyDegrades | backend/config/fallback_redis_cache.py:143-147 | incrementing a key that Redis does not hold degrades a cache whose Redis is up |
| FallbackCache.ReadsSeeWrites | backend/config/fallback_redis_cache.py:128-138 | what `set` writes `get` reads, and no other key changes; `add` is `set` for a key that is not there, and nothing otherwise |
| FallbackCache.DeletesForget | backend/config/fallback_redis_cache.py:137-159 | `delete` answers whether the key was there and removes it alone; `clear` removes all |
| FallbackCache.ManyAreEach | backend/config/fallback_redis_cache.py:149-156 | the operations on many keys do what the single ones do for each |
| FallbackCache.IncrementsAdd | backend/config/fallback_redis_cache.py:143-147 | increments add up, decrementing undoes them, and they raise, without effect, exactly when the key holds no number |
| FallbackCache.DegradedIffLatestRaised | backend/config/fallback_redis_cache.py:90-124 | after every run the cache is degraded exactly when the latest Redis call raised |
| FallbackCache.TriedExactly | backend/config/fallback_redis_cache.py:85-124 | in every run Redis is tried for a call if and only if the latest Redis call did not raise, or at least 60 seconds have passed since that failure when the call starts |
| FallbackCache.NextFailureIsFar | backend/config/fallback_redis_cache.py:85-124 | after a failure every later one is recorded at least 60 seconds later, however many recoveries lie in between |
| FallbackCache.FailuresAreSpaced | backend/config/fallback_redis_cache.py:85-124 | any two recorded Redis failures are at least 60 seconds apart |
| FallbackCache.FewFailuresPerWindow | backend/config/fallback_redis_cache.py:85-124 | any window of L seconds holds at most floor(L/60) + 1 failed Redis calls |
| LokiBridge.LatestExactly | infrastructure/monitoring/loki-log-bridge.py:137-137 | of timestamps without leading zeros the string maximum is the latest time if and only if none has more digits |
| LokiBridge.OneWidthIsLatest | infrastructure/monitoring/loki-log-bridge.py:137-137 | it is for timestamps with one number of digits, leading zeros or not |
| LokiBridge.AdvanceMeaning | infrastructure/monitoring/loki-log-bridge.py:136-139 | the cursor becomes the nanosecond after the string maximum, but never an earlier one |
| LokiBridge.FetchedAgainExactly | infrastructure/monitoring/loki-log-bridge.py:130-139 | for every query, refused, cut off or complete, later queries of the loop's rounds can fetch a line of its answer again if and only if the string maximum was not the latest time |
| LokiBridge.NextRoundFetches | infrastructure/monitoring/loki-log-bridge.py:130-139 | the lines of an answer that the cursor has not passed can all come again in the very next round, at any time, when the other job's requests fail |
| LokiBridge.WidthsMatter | infrastructure/monitoring/loki-log-bridge.py:130-139 | rounds of the loop, with any time between them, that fetch a line with a 19-digit timestamp twice, because another has 18 digits |
| LokiBridge.CursorNeverGoesBack | infrastructure/monitoring/loki-log-bridge.py:135-139 | over any run the shared cursor never decreases |
| LokiBridge.NoLineTwice | infrastructure/monitoring/loki-log-bridge.py:130-143 | a line fetched with an answer whose string maximum is its latest time is never fetched again, by either job, whatever fails, arrives late or is cut off |
| LokiBridge.CleanIsExact | infrastructure/monitoring/loki-log-bridge.py:73-99 | a query that does not fail, meets no late line and is not cut off returns exactly the job's lines of its range |
| LokiBridge.AnswerIsLimited | infrastructure/monitoring/loki-log-bridge.py:75-82 | an answer has at most 5000 lines, and one with fewer holds all lines of its range unless the query failed |
| LokiBridge.FirstJobMissesNothing | infrastructure/monitoring/loki-log-bridge.py:129-143 | in a clean run every line of the first job from the start on is fetched in the first round whose clock is past it |
| LokiBridge.SecondJobMissesExactly | infrastructure/monitoring/loki-log-bridge.py:129-143 | in a clean run a line of the second job is delivered if and only if it is after the maximum of what the first job fetched in that round, that is after its newest line if the maximum is the latest |
| LokiLoop.JobsKeepApart | infrastructure/monitoring/loki-log-bridge.py:67-70 | the files of the two jobs never coincide, and "node_*" matches those of the first alone |
| LokiLoop.FileNameMeaning | infrastructure/monitoring/loki-log-bridge.py:106-109 | the file's name is the job's prefix, the node's characters with all but letters, digits, "-" and "_" made "_", and ".log" |
| LokiLoop.SharedFileExactly | infrastructure/monitoring/loki-log-bridge.py:107-109 | two nodes share a file exactly if they agree on all characters but those that become "_" |
| LokiLoop.TextForMeaning | infrastructure/monitoring/loki-log-bridge.py:110-113 | a line goes, with a line break, to the one file that its job and node name |
| LokiLoop.Bridge.WriteLogs | infrastructure/monitoring/loki-log-bridge.py:102-116 | every file grows by the texts of its node's lines, in order, and by nothing else |
| LokiLoop.Bridge.PollJob | infrastructure/monitoring/loki-log-bridge.py:131-139 | one job queries from the cursor on, writes what came, and moves the cursor past the newest line or not at all |
| LokiLoop.Bridge.PollRound | infrastructure/monitoring/loki-log-bridge.py:130-142 | a round polls the first job, and then the second from wherever the first left the cursor |
| LokiLoop.Bridge.PollRounds | infrastructure/monitoring/loki-log-bridge.py:129-143 | the loop ends with the cursor and the files that its rounds give one after the other |
| LokiLoop.LoopIsRun | infrastructure/monitoring/loki-log-bridge.py:129-143 | the queries of the loop's rounds form a run |
| LokiLoop.LoopMakesRounds | infrastructure/monitoring/loki-log-bridge.py:130-133 | with a clock that does not run backwards the loop's queries poll the first job and then the second, with one clock reading for both |
| LokiLoop.DeliveredExactly | infrastructure/monitoring/loki-log-bridge.py:129-143 | in a clean run exactly those lines are delivered that are not from before the start, that some round's clock is past, and that, if of the second job, are after the maximum of the first job's answer in that round |
| LokiLoop.AddedAreTexts | infrastructure/monitoring/loki-log-bridge.py:102-143 | when every write succeeds, a file gets exactly the texts of all answers that belong there, in order, whatever Loki answers |
| LokiLoop.FilesHoldExactly | infrastructure/monitoring/loki-log-bridge.py:102-143 | when nothing fails, comes late or is cut off, the loop adds to each file the texts that belong there of a list of lines, in the order of the answers; the list holds exactly the lines delivered so, and each once if the string maximum of every answer is its latest time |
| AgentRegistrar.BaseUrls | scripts/agent_registrar.py:89-97 | the URL list holds the primary and the fallbacks, each once, in the order of first occurrence, the primary first |
| AgentRegistrar.OrderIsPermutation | scripts/agent_registrar.py:372-378 | over distinct URLs a round's order is a permutation of them with the sticky one in front |
| AgentRegistrar.OrderMovesOne | scripts/agent_registrar.py:372-378 | the sticky base is moved to the front and the others stay in their order |
| AgentRegistrar.Sender.PostWithBackoff | scripts/agent_registrar.py:397-437 | a call makes exhausted rounds in that order, sleeps after each, and ends after eight of them or with the post that decides; the sticky base becomes the one that answered 2xx and changes in no other case |
| AgentRegistrar.Sender.PostRound | scripts/agent_registrar.py:411-431 | one round posts to the bases in order up to the first 2xx, or the first client error that no other base would answer differently |
| AgentRegistrar.SuccessExactly | scripts/agent_registrar.py:397-437 | the call returns 2xx if and only if some post was answered 2xx, by the winner; it ends before its eighth round's backoff if and only if some post was answered 2xx or a 4xx other than 401, 403, 408 and 429 |
| AgentRegistrar.WinnerGoesFirst | scripts/agent_registrar.py:368-378 | the base that answered is a known one, and the next call starts with it |
| AgentRegistrar.AtMostEightPosts | scripts/agent_registrar.py:397-437 | over distinct URLs a call makes at most eight posts to each |
| AgentRegistrar.DelayClosedForm | scripts/agent_registrar.py:407-436 | the delay after round r is 2^r seconds for r < 6 and 60 seconds from then on |
| AgentRegistrar.TotalBackoff | scripts/agent_registrar.py:407-436 | r exhausted rounds sleep 2^r - 1 seconds for r up to 6, and 60 more for each further round |
| AgentRegistrar.EightRoundsSleep183 | scripts/agent_registrar.py:410-436 | the eight rounds coded sleep 183 seconds |
| AgentRegistrar.Heartbeats | scripts/agent_registrar.py:504-523 | each heartbeat starts no earlier than an interval after the previous post returned and at most half a second past due, plus what sleeps overrun; nothing is slept for more than five seconds |
| Autoscaler.CalculateDemandScores | scripts/smsly-autoscaler.py:258-285 | every service of the table gets its score, 0 if it does not run, and nothing else gets one |
| Autoscaler.CpuCounts | scripts/smsly-autoscaler.py:267-284 | at priority 1 the score grows by 0.4 for each 100% of CPU, up to 100% and no further |
| Autoscaler.MemoryCounts | scripts/smsly-autoscaler.py:267-284 | by 0.3 for each 100% of memory, up to 100% |
| Autoscaler.TrafficCounts | scripts/smsly-autoscaler.py:267-284 | by 0.2 for each 50 MB of traffic, both directions together, up to 50 MB |
| Autoscaler.ProcessesCount | scripts/smsly-autoscaler.py:267-284 | by 0.1 for each 100 processes, up to 100; an idle service scores 0 |
| Autoscaler.NextPriorityCounts | scripts/smsly-autoscaler.py:281-283 | each further priority adds a tenth of the score at priority 1, until the score reaches 1 |
| Autoscaler.ShippedScores | scripts/smsly-autoscaler.py:109-124 | the scores of the shipped services when each uses a fifth of everything |
| Autoscaler.ScoreIsMonotoneInUnitRange | scripts/smsly-autoscaler.py:258-285 | for priorities of at least 1 and non-negative statistics every score is between 0 and 1, and no statistic that grows lowers it |
| Autoscaler.TargetInRangeExactly | scripts/smsly-autoscaler.py:338-353 | the worker target stays between the bounds for every demand if and only if 60% of the maximum, truncated, is not below the minimum |
| Autoscaler.TargetFollowsDemandExactly | scripts/smsly-autoscaler.py:338-353 | the target never falls as demand rises if and only if that value is not below the target for low demand |
| Autoscaler.TruncTowardZero | scripts/smsly-autoscaler.py:350-350 | Python's `int` takes the whole number next to x on the side of zero |
| Autoscaler.ShippedTargets | scripts/smsly-autoscaler.py:109-124 | every shipped service keeps its bounds; all but two follow demand |
| Autoscaler.ShippedWorkers | scripts/smsly-autoscaler.py:109-124 | the workers that each shipped service gets below 0.1, 0.3 and 0.6 and above |
| Autoscaler.MakeScalingDecisions | scripts/smsly-autoscaler.py:304-382 | one decision for each running service of the table, in order, with a missing score counted as 0 and the sum of all scores as the total |
| Autoscaler.MemoryInRange | scripts/smsly-autoscaler.py:316-362 | every memory target is between 256 and 2048 MB, for all inputs |
| Autoscaler.WorkerMemoryExactly | scripts/smsly-autoscaler.py:361-362 | a worker service gets 120 MB for each worker and 128 more, between 256 and 2048 MB |
| Autoscaler.DaphneMemoryExactly | scripts/smsly-autoscaler.py:316-322 | a Daphne service gets the whole megabytes of half its share of the budget, brought to the nearest of 256 to 2048 |
| Autoscaler.ActionExactly | scripts/smsly-autoscaler.py:323-372 | a worker service is scaled exactly when its target differs from its running workers, up or down, and otherwise its memory is set exactly when the limit is more than 64 MB off |
| AutoscalerBudget.DaphneBudgetExactly | scripts/smsly-autoscaler.py:304-333 | among the decisions for any table and any scores that are not negative, the k Daphne targets together stay within half the budget plus 256 MB each if and only if the budget is not negative |
| AutoscalerApply.ReadingIsExact | scripts/smsly-autoscaler.py:441-446 | the worker count is read correctly if and only if there is a worker; else the parse raises |
| AutoscalerApply.GunicornPool.Scale | scripts/smsly-autoscaler.py:427-467 | the pool moves by exactly the signals delivered towards the target, and not at all when the count cannot be parsed |
| AutoscalerApply.ScaleWithProbe | scripts/smsly-autoscaler.py:427-467 | with every signal delivered the pool ends at the target if it had a worker, and stays empty otherwise, which is the worker count of a scaled container |
| AutoscalerApply.CommandsDecide | scripts/smsly-autoscaler.py:389-424 | the limit changes exactly when the update works, and the workers exactly when scaling is asked for, nothing raises and the type can be scaled |
| AutoscalerApply.Host.ApplyDecisions | scripts/smsly-autoscaler.py:389-424 | each container with a decision ends as the commands for the decision leave it, whether they work, fail or raise, and no other one is touched |
| AutoscalerApply.Host.Cycle | scripts/smsly-autoscaler.py:703-728 | a turn makes the decisions and applies them if any asks for something |
| AutoscalerApply.SecondRoundIsNone | scripts/smsly-autoscaler.py:335-424 | for a whole table, after every decision was applied, deciding again with the same demand asks for nothing if and only if every running service can reach its target |
| AutoscalerApply.Host.CycleTwice | scripts/smsly-autoscaler.py:703-728 | so do two turns of the autoscaler with the same demand, if the commands of the first succeed |
| SentinelSingleton.AtMostOneBuild | backend/config/redis_sentinel.py:71-95 | in every run at most one instance is built in each process |
| SentinelSingleton.CallersShareTheInstance | backend/config/redis_sentinel.py:63-95 | every call that returns in a process returns the instance built there, and calls of different processes never share one |
| SentinelSingleton.HeldByInsider | backend/config/redis_sentinel.py:65-95 | in a process not forked inside the lock, the lock is held by exactly the thread inside it, so that it is free when a call has returned or raised |
| SentinelSingleton.RaisingFreesLock | backend/config/redis_sentinel.py:82-95 | a call whose constructor raised leaves the lock free and no instance built by it |
| SentinelSingleton.BuiltNeedsNoLock | backend/config/redis_sentinel.py:80-81 | once there is an instance a call returns it without the lock, whoever holds that |
| SentinelSingleton.ForkInLockOrphans | backend/config/redis_sentinel.py:65-68 | the child of a fork has an orphaned lock if and only if the lock was held at the fork |
| SentinelSingleton.OrphanNeverGetsAnInstance | backend/config/redis_sentinel.py:65-95 | in a process with an orphaned lock nothing is ever built, returned or raised |
| SentinelSingleton.FreeChildBuildsItsOwn | backend/config/redis_sentinel.py:65-95 | a child forked while the lock was free can build and return an instance that no process had before |
| Billing.BillingAccount.ActivatePaidPlan | backend/apps/billing/utils.py:21-52 | the three fields end as `Activated` says; an unknown plan changes nothing |
| Billing.LastRecognisedDecides | backend/apps/billing/utils.py:21-47 | over any sequence the last request with a known plan decides: PRO and ENTERPRISE leave that plan, active, HOBBY an inactive account without a period; ENTERPRISE and PRO without stacking keep the period end, stacking PRO moves it by the configured days from the later of now and then |
| Billing.OthersChangeNothing | backend/apps/billing/utils.py:23-29 | requests with any other plan text leave the account as it was |
| Billing.PeriodEndIsMaximum | backend/apps/billing/utils.py:37-45 | after n extending PRO activations the period ends at the maximum of the first end plus nD and of every t_i + (n - i + 1)D |
| Billing.PurchaseFollows | backend/apps/billing/utils.py:37-45 | each purchased interval has D days, starts no earlier than it was bought and where the previous one ends or later, and ends where the account says |
| Billing.PurchasesAreDisjoint | backend/apps/billing/utils.py:37-45 | no instant lies in two of the intervals, for any D; each ends before every later one starts if D is not negative |
| Billing.PaidTimeIsConserved | backend/apps/billing/utils.py:37-45 | they add up to n times D, and the final end lies at least that much after the first, for any D |
| BillingLock.EveryInterleavingIsSerial | backend/apps/billing/utils.py:31-52 | under the row lock any interleaving of concurrent activations, aborts included, leaves the account as the committed ones give it one after the other, each exactly once and with the plan, stacking and days that its transaction was begun with; the row is locked by exactly the transaction inside the lock |
| PgcatConfig.FetchNodeAgentUsers | infrastructure/pgcat/render_pgcat_config.py:45-74 | the users are exactly the last ones the rows give under each name, in the order in which the names first occur, with distinct non-empty names and non-empty passwords; none when the query fails |
| PgcatConfig.RowUserExactly | infrastructure/pgcat/render_pgcat_config.py:47-68 | exactly which user a row gives: the stored password or else the old one, under the stored name or else "node_agent_" and the node ID's text before the first dash; none without a name or a password |
| PgcatConfig.Render | infrastructure/pgcat/render_pgcat_config.py:77-213 | a file is written if and only if nothing required is missing, the admin password is not insecure in production, the three sizes are integers, and the total is within the limit; its text is then the one of `FileText`, and each other error has its exact condition |
| PgcatReading.BudgetIsEmitted | infrastructure/pgcat/render_pgcat_config.py:114-207 | for any number of node users the emitted pool sizes add up to the checked total less the five reserved connections, and both pools list the same users |
| PgcatText.TextIsItsLines | infrastructure/pgcat/render_pgcat_config.py:139-213 | for all values the text of the file reads like its list of lines with each element split at the line breaks in it |
| PgcatText.FileKeepsBudgetExactly | infrastructure/pgcat/render_pgcat_config.py:139-213 | for all values the text of the file, read line by line, gives that budget and those users if and only if no user name contains a line break and the lines of the other values name no user and set sizes that add up to 0, those of the pools counted twice |
| PgcatText.PasswordDecides | infrastructure/pgcat/render_pgcat_config.py:174-213 | when only the database password may contain line breaks, that is so if and only if the lines of its own list element say nothing |
| PgcatText.OneLineValuesKeepBudget | infrastructure/pgcat/render_pgcat_config.py:139-213 | in particular it is so when no value contains a line break |
| PgcatText.LineBreakAddsSize | infrastructure/pgcat/render_pgcat_config.py:174-213 | with a certain database password the text, for every other value without line breaks, holds twice a further pool size more than the checked budget |
| PgcatTables.GeneralSettings | infrastructure/pgcat/render_pgcat_config.py:139-167 | read as tables of settings, for values without line breaks, the text has the general table with the admin's credentials and the twelve fixed settings, and nothing else |
| PgcatTables.PoolSettings | infrastructure/pgcat/render_pgcat_config.py:169-198 | then for either pool its own mode, "transaction" and "session", and the servers and the database |
| PgcatTables.MainUserSettings | infrastructure/pgcat/render_pgcat_config.py:176-203 | then the main user under its own heading, with its name, password and the configured size |
| PgcatTables.NodeSettings | infrastructure/pgcat/render_pgcat_config.py:180-207 | then each node agent under its own heading, with its name and password and five or three connections |
| TemplateFixture.BuildTemplates | scripts/generate_templates_fixture.py:93-117 | returns exactly the first `count` entries of the round-robin, with distinct IDs, unless the base is empty or ambiguous for that count |
| TemplateFixture.GeneratedAreCopies | scripts/generate_templates_fixture.py:93-111 | each entry is a base entry in turn, in round n with the same two-digit n after its ID, name and description and everything else as it was |
| TemplateFixture.CountIds | scripts/generate_templates_fixture.py:113-116 | comparing the number of entries with the number of IDs finds exactly the repeated IDs |
| TemplateFixture.UniqueExactly | scripts/generate_templates_fixture.py:93-117 | the generated IDs are distinct if and only if the base entries used are, and none has the ID of a variant used |
| TemplateFixture.LastMark | scripts/generate_templates_fixture.py:107-108 | the base ID and the numeral can be read off the ID of a variant |
| TemplateFixture.NeverFires | scripts/generate_templates_fixture.py:113-117 | for distinct base IDs, none ending in "-p" and two or more digits, the duplicate check never fires, whatever the count |
| TemplateFixture.AmbiguousExample | scripts/generate_templates_fixture.py:93-117 | a base for which two entries can be generated and three cannot |

## Left out

- napd, HTTP: secrets, status codes (for a bad tier name the header promises 400 at `napd/main.go:29`, the handlers answer 404 at `napd/main.go:302-304`) and JSON replies; the tier-name pattern; parsing of the tiers.d files (`Conf` is what they decode to).
- napd, order: the reaper's visits are modelled in any order rather than directory order, and concurrent reapers are allowed; the proofs cover more runs than the program has. Restarts enter only as an arbitrary initial `lastWake`.
- napd, time: `time.Since` saturates after 292 years, which does not change the comparison; the clock is taken not to run backwards.
- Edge sidecar: the domain ask handler and the HTTP servers; HMAC-SHA-256, JSON decoding and the Unicode tables are parameters. Writers are taken to raise the mtime with every write, and a read to see one version of the file.
- Cache: expiry and eviction in either store, sharing of the local store between threads, connection setup through Sentinel, `close`, and interleaved calls of several threads on one cache object. `Decr` is taken to work on both stores like `Incr` with the opposite sign, however the Redis cache class implements it.
- Bridge: `parse_lookback`, `ns_to_rfc3339`, decoding of Loki's answer and the sleep between rounds. A line whose write fails is lost, which `writes` models; exceptions that end the process are not.
- Registrar: signing, TLS and host names, runtime information, registration, and the probing in `BaseUrlResolver.current`, which nothing uses.
- Autoscaler: Python floats are exact reals; the HTTP API, the history and parsing of `docker stats`. Gunicorn is taken to obey every delivered signal, although it keeps one worker.
- Sentinel: parsing of the host list, the connection helpers, and the configuration without Sentinel, in which `get_sentinel` returns None at once. A fork is taken to happen in a thread that is not inside `get_sentinel`.
- Billing: license and subscription updates after the account, parsing of the configured days, and the case and white space of the plan's text.
- PgCat: parsing of replica hosts (the rendered entries are parameters) and of the integers (`numeric` says whether `int` accepts them); the query for role names, which only produces a warning.
- PgcatTables.GeneralSettings: like the other three of its module, is stated for values without line breaks; what line breaks do to sizes and users is `FileKeepsBudgetExactly`.
- PgCat, reading: the file is read line by line, either for its `pool_size` lines and its headings of users or for its settings and headings. Whether the text is well-formed TOML, and what PgCat makes of it, is not modelled. The wording of the comment on the exporter is a parameter, and nothing is said of that of the other comments.
- Template fixture: the construction of the base templates, icons and environment variables, and writing the file.
