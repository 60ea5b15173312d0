# Verification of the API's algorithms

A Dafny model of the parts of the repository where the order of steps matters: the chat stream on the wire, the
agent loop and its usage accounting, retries over a circuit breaker, the per-tenant rate limiter, document
chunking and ingestion, message and stream codecs, memberships and invitations, and money. Code that changes things
step by step is a method or a class whose contract ties it to a specification function; what the code promises is then
proved of that function over all inputs, all interleavings or all runs. What the network, the clock, the database
and the model do is a parameter: a script with one entry for each thing that can happen.

| module | models |
|---|---|
| `Prelude` | options, concatenation |
| `SseFraming` | the printer `_sse` and the browser's read loop |
| `StreamAssembly`, `Translation` | reading completions whole and streamed; normalized messages to the OpenAI format and back |
| `CircuitBreaking`, `Resilience`, `BreakerTraffic` | the breaker as a function of its history; retries of calls and of streams; many calls over one breaker, with reports only from calls in flight |
| `RequestWindow`, `TokenBudget`, `RateLimiting` | the two budgets as state machines over interleaved steps and key expiry; `TenantRateLimiter` over them |
| `Chunking`, `Ingestion` | overlapping windows of words; the pipeline as a transaction machine |
| `UsageTracking`, `AgentTools`, `Agent`, `AgentRuns`, `AgentTrace` | the generator `tracked_stream`; the toolbox and its citations; the agent loop up to the response; what all runs keep; a run in closed form |
| `Tenants`, `TenantRules` | the role and invitation state machine; who may do what, and what comes of it |
| `Pricing`, `UsageRows`, `Dashboard` | prices and rounding; the rows of the usage table; daily and total costs |
| `Database` | a session: working state, committed state, all states committed |

`dafny verify dfyconfig.toml` checks everything.

## Where the code and its documentation part

Each of these is a theorem; the model follows the code.

- **Usage rows do not always survive an interrupted response** (README.md:188-190, apps/api/src/domains/chat/router.py:98-100,
  apps/api/src/domains/usage/models.py:22-25). They survive every client exactly if the first completion calls no tool:
  `AgentRuns.RowsSurviveEveryClientIff`. While a provider's stream is being read they do, as far as the close reaches the
  generators at once (see "Left out" for the event loop's finalizer and for cancellation). When the client closes at a
  `tool_use` event, or a tool raises, the rows of the finished rounds have only been flushed, and all are rolled
  back; the family is `AgentRuns.ClosingAtToolUse`.
- **Nor do they survive a failed ingestion**: rows of earlier embedding batches go with the rollback.
  `Ingestion.PaidUsageSurvivesIff`, with the family `Ingestion.PaidUsageLost`.
- **Not only outages feed the breaker** (README.md:191-193): every `LLMError` but a rate limit does. Without a success in
  between, the circuit is open exactly if all these errors reach the threshold (`BreakerTraffic.OpenIffErrors`), so that
  callers with bad requests close a healthy provider to everybody (`BreakerTraffic.BadRequestsOpenTheCircuit`).
- **A half-open probe that is rate limited is lost for good**: its flag stays set, its own retry is refused
  (`BreakerTraffic.RateLimitedProbe`), and no check is ever admitted again exactly if the probe was rate limited or crashed and
  no call from before it is still in flight (`BreakerTraffic.ProbeLostForeverIff`).
- **More than one half-open probe can be out at once** (apps/api/src/llm/resilience.py:37-40 and 61): a late failure report of
  a call from before clears the flag. With the flag clear, one probe at a time holds in every run without a success exactly if no
  such call is in flight (`BreakerTraffic.OneProbeIff`); otherwise there may be as many more as there are such calls, and no more.
- **The requests-per-minute limit holds exactly when no two checks of a tenant overlap**; with k at once it is exceeded by
  up to k - 1. `RequestWindow.LimitHoldsIffSerial`.
- **The tokens-per-day limit holds exactly when all requests at once can record no more than one token**; with k requests of m
  tokens it is exceeded by up to k * m - 1. `TokenBudget.BudgetHoldsIff`.
- **Interrupted calls are recorded as free**: their rows carry the model `unknown`, which has no price.
  `AgentRuns.InterruptedCallsAreFree`.
- **The stored answer is not always what was streamed**: text that came before a tool call was shown and is not stored.
  `AgentRuns.ReadVersusStored`, with the family `AgentRuns.StoredIsNotWhatWasRead`.
- A token limit of 0 refuses nothing until the first tokens of the day are recorded (`TokenBudget.RefusesOnTotal`), and a
  request that the token budget refuses has used up a request slot (`RateLimiting.TenantRateLimiter.Check`).

## Model

| member | source | states |
|---|---|---|
| `SseFraming.StreamChatMessage` | apps/web/lib/api/chat-stream.ts:62-77 | the buffer/split/pop loop yields the same events, up to the same parse failure, however the text is cut into reads |
| `SseFraming.SplitResumes` | apps/web/lib/api/chat-stream.ts:68-70 | keeping only the unfinished frame across a cut anywhere, inside a separator or a run of newlines too, gives the split of the whole text |
| `SseFraming.SplitIs` | apps/web/lib/api/chat-stream.ts:69-70 | splitting undoes joining frames by empty lines, with any unfinished text after them |
| `SseFraming.PayloadIs` | apps/web/lib/api/chat-stream.ts:72-74 | the payload of a frame is what follows `data: ` in the first of its lines that starts so, wherever that line stands; without such a line there is none |
| `SseFraming.FailureIsFinal` | apps/web/lib/api/chat-stream.ts:74 | once a frame fails to parse, no later text changes what was yielded |
| `SseFraming.PrintSnoc` | apps/api/src/domains/chat/router.py:81-82 | each event adds one `data: ` line and an empty line to what is printed |
| `SseFraming.RoundTrip` | apps/api/src/domains/chat/router.py:81-82 | events printed by `_sse` and cut in any way are yielded exactly, in order |
| `SseFraming.TruncatedRoundTrip` | apps/web/lib/api/chat-stream.ts:65-77 | if the connection is lost at any character, exactly the events whose frame had fully arrived are yielded |
| `Chunking.ChunkPages` | apps/api/src/domains/documents/parsing.py:36-62 | the loop over pages produces the windows and merges described by `Expected`, with positions 0..n-1 |
| `Chunking.ChunkPage` | apps/api/src/domains/documents/parsing.py:43-61 | the loop over `start`: the tiny-tail branch fires only for a whole short page, at start 0 |
| `Chunking.DefaultPage` | apps/api/src/domains/documents/parsing.py:36-62 | with the shipped constants a page adds nothing without words, its words to the last chunk if there is one and it has fewer than 20, and otherwise windows of 380 words every 332 |
| `Chunking.WindowLies` | apps/api/src/domains/documents/parsing.py:44-61 | the e-th window of a page starts e steps in and is cut at the target or at the end of the page |
| `Chunking.ChunksIffWords` | apps/api/src/domains/documents/parsing.py:36-62 | there are chunks iff some page has words |
| `Chunking.WordsHoldTheRest` | apps/api/src/domains/documents/parsing.py:40 | the words of a page are its characters other than white space, by code point, in order |
| `Chunking.WordsJoinRoundTrip` | apps/api/src/domains/documents/parsing.py:40-57 | splitting a joined chunk gives its words back |
| `Chunking.WindowSizes` | apps/api/src/domains/documents/parsing.py:44-61 | all windows but the last are full, the last of several has more than the overlap, and their number is the ceiling of (n - overlap) / step |
| `Chunking.DefaultWindowCount` | apps/api/src/domains/documents/parsing.py:31-33 | with the shipped constants a page of n > 380 words gives ceil((n - 48) / 332) chunks |
| `Chunking.NoTinyChunks` | apps/api/src/domains/documents/parsing.py:47-56 | every chunk but the first has at least the minimum of words |
| `Chunking.ChunkingLosesNothing` | apps/api/src/domains/documents/parsing.py:36-62 | dropping the overlap, the chunks' words are the words of all pages in order |
| `CircuitBreaking.CircuitBreaker.Check` | apps/api/src/llm/resilience.py:55-62 | admits iff closed, or open for at least the recovery time with no probe in flight, and keeps the fields a function of the history |
| `CircuitBreaking.CircuitBreaker.RecordSuccess` | apps/api/src/llm/resilience.py:64-67 | a success closes the breaker; the fields stay a function of the history |
| `CircuitBreaking.CircuitBreaker.RecordFailure` | apps/api/src/llm/resilience.py:69-75 | a failure counts, (re)opens at the threshold and clears the probe; the fields stay a function of the history |
| `CircuitBreaking.ProbeSpacing` | apps/api/src/llm/resilience.py:55-75 | while the breaker stays open, admitted checks are at least the recovery time apart, whoever reports in between |
| `CircuitBreaking.ProbesPerOpenPeriod` | apps/api/src/llm/resilience.py:55-75 | an open period of length T admits at most floor(T / recovery) calls |
| `BreakerTraffic.ProbeOutcome` | apps/api/src/llm/resilience.py:55-75 | a probe that succeeds closes the breaker; one that ends in an error other than a rate limit opens it anew for a full recovery time; one without report leaves it open with the flag set, and nothing passes at any time |
| `BreakerTraffic.RateLimitedProbe` | apps/api/src/llm/resilience.py:84-99 | a caller whose half-open probe is rate limited is refused at its own retry, after one call |
| `BreakerTraffic.ProbeLostForeverIff` | apps/api/src/llm/resilience.py:88-94 | after a half-open probe no check is admitted again in any run iff the probe was rate limited or crashed and no earlier call is in flight |
| `CircuitBreaking.LostProbeBlocks` | apps/api/src/llm/resilience.py:55-75 | after a probe without report every check is refused until some report, after which a check one recovery later passes |
| `BreakerTraffic.ProbesBounded` | apps/api/src/llm/resilience.py:55-75 | while no call succeeds, an open breaker lets at most one call through beyond those in flight before, whoever reports when |
| `BreakerTraffic.ProbesReached` | apps/api/src/llm/resilience.py:69-75 | for any number of earlier calls there is a run in which that many probes and one more are out at once |
| `BreakerTraffic.OneProbeIff` | apps/api/src/llm/resilience.py:37-62 | never more than one probe is out, in any run without a success, iff no earlier call is in flight, or one and the flag is set already |
| `Resilience.RetryPolicy.DelayFor` | apps/api/src/llm/resilience.py:23-31 | the server's delay capped at a minute, else between half and full exponential backoff, never above the maximum |
| `BreakerTraffic.OpenIffErrors` | apps/api/src/llm/resilience.py:88-93 | over any run without a success, with any checks in between, the circuit is open iff the failures before and the errors since, other than rate limits, reach the threshold |
| `BreakerTraffic.BadRequestsOpenTheCircuit` | apps/api/src/llm/resilience.py:91-94 | threshold minus failures callers with bad requests make one call each and open the circuit; the next caller within the recovery time is refused without a call |
| `Resilience.TryOnce` | apps/api/src/llm/resilience.py:85-102 | one attempt: its check and its report, with others acting before and during the call |
| `Resilience.CallWithRetries` | apps/api/src/llm/resilience.py:78-104 | the loop, with other callers acting on the breaker at any point, refines `Retry`: result, calls made, sleeps, final history |
| `Resilience.RetryOutcome` | apps/api/src/llm/resilience.py:84-104 | the result is the first success or final error within the attempts, else the last error, else CircuitOpen at the first refused check; one sleep per retryable failure, the last too |
| `Resilience.RetryAccounts` | apps/api/src/llm/resilience.py:78-104 | the history of the breaker over the whole call, event by event: each attempt asked, then its success, its failure unless rate limited, or nothing; and each sleep, a half to the whole of the doubled backoff or the server's delay up to a minute |
| `Resilience.DownProvider` | apps/api/src/llm/resilience.py:55-104 | alone against a dead provider: exactly min(max_attempts, threshold - failures) calls, and CircuitOpen iff the threshold comes first |
| `Resilience.Stream` | apps/api/src/llm/resilience.py:138-167 | the retried stream, its sleeps, and a consumer that closes it at any yield refine `RetryStream` |
| `Resilience.NoReplay` | apps/api/src/llm/resilience.py:107-112 | output comes from one inner attempt, whole unless the consumer closes; the attempts before it yielded nothing and each was followed by a sleep; at most max_attempts |
| `Resilience.StreamRetryAccounts` | apps/api/src/llm/resilience.py:138-167 | the same for the stream: an attempt that yields or ends empty reports a success, one that breaks before any event a failure unless rate limited, a crash before any event nothing |
| `RequestWindow.SlidingWindow` | apps/api/src/llm/rate_limit.py:91-113 | over every interleaving with at most k checks between their pipelines, no 60 s window holds more than limit + k - 1 admissions |
| `RequestWindow.CountDecides` | apps/api/src/llm/rate_limit.py:92-101 | in every run a check is let through iff fewer than limit requests were admitted within the last 60 seconds |
| `RequestWindow.KeyLife` | apps/api/src/llm/rate_limit.py:110-113 | the scores are kept for 120 seconds after the last one was added, and no longer |
| `RequestWindow.ExpiryIsHarmless` | apps/api/src/llm/rate_limit.py:110-113 | the 120 s expiry drops no score that a later count would keep |
| `RequestWindow.Overshoot` | apps/api/src/llm/rate_limit.py:96-113 | for every limit and k some run admits limit + k - 1 in one window |
| `RequestWindow.LimitHoldsIffSerial` | apps/api/src/llm/rate_limit.py:91-113 | the limit is kept in every run iff checks do not overlap |
| `RequestWindow.RetryAfterTight` | apps/api/src/llm/rate_limit.py:101-108 | the announced wait exceeds the time to free by at most one second |
| `RequestWindow.RetryAfterSound` | apps/api/src/llm/rate_limit.py:101-108 | in serial runs a rejected caller that waits as told passes, and one that comes before the oldest score leaves does not |
| `TokenBudget.DailyBudget` | apps/api/src/llm/rate_limit.py:79-87 | if only admitted requests record, at most k at once and m tokens each, the tokens under one day's key never exceed max(limit - 1, 0) + k * m, across midnights and expiries |
| `TokenBudget.RefusesOnTotal` | apps/api/src/llm/rate_limit.py:115-126 | in every run, whoever records, a check is refused iff something was recorded today and the day's total has reached the limit |
| `TokenBudget.KeyLife` | apps/api/src/llm/rate_limit.py:79-87 | the day's total is kept for 48 hours after tokens were last recorded under it, and no longer |
| `TokenBudget.BudgetOvershoot` | apps/api/src/llm/rate_limit.py:79-121 | for every limit, k and m a run takes a day's total to max(limit - 1, 0) + k * m |
| `TokenBudget.BudgetHoldsIff` | apps/api/src/llm/rate_limit.py:79-121 | the daily limit is kept in every run iff k * m is at most 1 |
| `TokenBudget.WaitLandsTomorrow` | apps/api/src/llm/rate_limit.py:128-132 | the wait ends in the next UTC day, less than a second after midnight |
| `RateLimiting.TenantRateLimiter.CountRequests` | apps/api/src/llm/rate_limit.py:92-101 | prune and count is the Count step of the window machine |
| `RateLimiting.TenantRateLimiter.RejectionWait` | apps/api/src/llm/rate_limit.py:102-104 | the wait computed from the oldest score left |
| `RateLimiting.TenantRateLimiter.AddRequest` | apps/api/src/llm/rate_limit.py:110-113 | the second pipeline is the Add step |
| `RateLimiting.TenantRateLimiter.CheckTokens` | apps/api/src/llm/rate_limit.py:115-132 | the token check is the Check step and refuses exactly when that refuses; the wait is counted from a second reading of the clock |
| `RateLimiting.TenantRateLimiter.RecordTokens` | apps/api/src/llm/rate_limit.py:79-87 | recording is the Record step, nothing for 0 tokens or less |
| `RateLimiting.TenantRateLimiter.CheckRequests` | apps/api/src/llm/rate_limit.py:91-113 | both pipelines, whatever steps other callers take in between: refused iff the count finds the limit reached, with the wait announced; else its score is added |
| `RateLimiting.TenantRateLimiter.Check` | apps/api/src/llm/rate_limit.py:54-69 | both checks, whatever steps other callers take between any two of its own: a request that the token budget refuses stays in the request log |
| `RateLimiting.TenantRateLimiter.Others` | apps/api/src/llm/rate_limit.py:54-132 | other callers' steps, and keys that expire, in any possible order |
| `RateLimiting.CountDecides` | apps/api/src/llm/rate_limit.py:54-113 | over every interleaving a count lets its check through iff fewer than rpm requests were admitted within the last 60 seconds |
| `RateLimiting.BudgetDecides` | apps/api/src/llm/rate_limit.py:115-122 | over every interleaving a token check is refused iff tokens were recorded today and have reached tpd |
| `RateLimiting.BothBudgets` | apps/api/src/llm/rate_limit.py:54-132 | over every interleaving of all callers' steps, both budgets hold with their bounds |
| `StreamAssembly.Stream` | apps/api/src/llm/openai_provider.py:194-266 | the loop ends with what the chunks assemble to, and the deltas yielded concatenate to the text |
| `StreamAssembly.Accumulator.Read` | apps/api/src/llm/openai_provider.py:226-246 | one chunk keeps text, slots, finish reason and usage what the chunks read so far determine |
| `StreamAssembly.Accumulator.End` | apps/api/src/llm/openai_provider.py:250-266 | the completion is that of the chunks read, tool calls in the order of their index |
| `StreamAssembly.StreamingIsComplete` | apps/api/src/llm/openai_provider.py:175-192 | for every fragmentation of a response, interleaved across calls, the stream ends with the completion that `complete` builds, and that completion has the response's text, calls, stop reason and usage |
| `StreamAssembly.CompleteReads` | apps/api/src/llm/openai_provider.py:27-55 | what `complete` makes of a response: each finish reason, cached tokens counted apart from the other input, `{}` for a call without arguments |
| `StreamAssembly.WholeFragments` | apps/api/src/llm/openai_provider.py:220-246 | every response has a fragmentation: at the least one chunk that holds everything |
| `StreamAssembly.CutText` | apps/api/src/llm/openai_provider.py:233-235 | cutting a chunk of text anywhere gives another fragmentation of the same response |
| `StreamAssembly.LastIdCounts` | apps/api/src/llm/openai_provider.py:240-241 | of several ids of a call, the last one counts |
| `StreamAssembly.ReadsWhatIsSent` | apps/api/src/llm/openai_provider.py:220-226 | every chunk sent is read, in order, and nothing after `[DONE]` |
| `StreamAssembly.OtherLinesDoNotMatter` | apps/api/src/llm/openai_provider.py:221-222 | lines that are no data change nothing |
| `Translation.TranslateMessages` | apps/api/src/llm/openai_provider.py:57-92 | the loop over messages produces `TranslateAll`, after the system prompt if there is one |
| `Translation.OnTheWire` | apps/api/src/llm/openai_provider.py:63-91 | plain text goes under its role; an assistant turn is one message with null content if it says nothing; each output is a tool message under the id of its call |
| `Translation.RoundMessagesSay` | apps/api/src/domains/chat/agent.py:132-140 | a tool round is two messages: the turn with its text, if any, and its calls in order, and the outputs under the ids of the calls |
| `Translation.TranslationInvertible` | apps/api/src/domains/chat/agent.py:186-195 | from the translated messages of a plain history and tool rounds a decoder reads them back, and every list of tool calls is followed at once by exactly its results in order |
| `Translation.SystemPromptIsDropped` | apps/api/src/llm/openai_provider.py:61-62 | the system prompt in front changes neither |
| `Tenants.TenantService.ListOrganizations` | apps/api/src/domains/tenants/service.py:34-46 | the caller's memberships, never empty, after creating the personal organization if there were none |
| `Tenants.TenantService.CreateOrganization` | apps/api/src/domains/tenants/service.py:51-55 | the creating user becomes the owner of the new organization: the step of the state machine |
| `Tenants.TenantService.HasOtherOwner` | apps/api/src/domains/tenants/service.py:206-210 | finds whether somebody else owns the organization |
| `Tenants.TenantService.UpdateMemberRole` | apps/api/src/domains/tenants/service.py:74-96 | the step of the state machine, with each refusal |
| `Tenants.TenantService.RemoveMember` | apps/api/src/domains/tenants/service.py:98-117 | the step of the state machine, with each refusal |
| `Tenants.TenantService.CreateInvitation` | apps/api/src/domains/tenants/service.py:119-150 | the step of the state machine, with each refusal |
| `Tenants.TenantService.RevokeInvitation` | apps/api/src/domains/tenants/service.py:159-170 | the step of the state machine, with each refusal |
| `Tenants.TenantService.AcceptInvitation` | apps/api/src/domains/tenants/service.py:172-197 | the step of the state machine, with each refusal |
| `Tenants.Ownership` | apps/api/src/domains/tenants/service.py:74-117 | in every reachable state each organization has an owner and each user at most one membership of it, and only an owner changes the owners |
| `Tenants.OwnersChangeOwners` | apps/api/src/domains/tenants/service.py:87-93 | whoever stops or starts owning an organization is the target of a role change or removal by an owner; an owner is removed only by themselves |
| `Tenants.Conservation` | apps/api/src/domains/tenants/service.py:98-197 | members = 1 + accepted invitations - removals, in every reachable state |
| `Tenants.SettledForever` | apps/api/src/domains/tenants/service.py:168-179 | accepted and revoked are exclusive and absorbing |
| `Tenants.SingleUse` | apps/api/src/domains/tenants/service.py:172-197 | a token succeeds once if its invitation ends accepted, and never otherwise |
| `TenantRules.ChangeRoleIff` | apps/api/src/domains/tenants/service.py:74-96 | a role is changed iff an admin or owner of the organization asks for a member of it, an owner where the owner role is taken or given, and somebody else owns it when an owner is demoted |
| `TenantRules.ChangeRoleDoes` | apps/api/src/domains/tenants/service.py:74-96 | then the target has that role, and everybody else the role they had |
| `TenantRules.RemoveIff` | apps/api/src/domains/tenants/service.py:98-117 | members may leave, admins remove members and owners admins and members; but never the last owner |
| `TenantRules.RemoveDoes` | apps/api/src/domains/tenants/service.py:98-117 | then the target has no role, and everybody else the role they had |
| `TenantRules.FoundingDoes` | apps/api/src/domains/tenants/service.py:51-55 | the founder of a new organization owns it, and nobody else gets or loses a role |
| `TenantRules.ListingDoes` | apps/api/src/domains/tenants/service.py:34-46 | listing creates an organization iff the user is a member of none |
| `TenantRules.InviteIff` | apps/api/src/domains/tenants/service.py:119-150 | an invitation is made iff an admin or owner asks, not for an owner and not for a member's email; it is for exactly that organization, email and role |
| `TenantRules.RevokeIff` | apps/api/src/domains/tenants/service.py:159-170 | an invitation is revoked iff an admin or owner of its organization asks while it is pending |
| `TenantRules.AcceptIff` | apps/api/src/domains/tenants/service.py:172-197 | an invitation is accepted iff it is pending, in time, sent to the user's email, and the user is not a member yet; the user gets exactly its role in exactly its organization |
| `TenantRules.OutsidersFindNothing` | apps/api/src/domains/tenants/service.py:199-204 | to somebody who is not a member, the organization is not found |
| `TenantRules.MembersManageNothing` | apps/api/src/domains/tenants/service.py:212-217 | a plain member may neither change roles nor invite nor revoke |
| `TenantRules.LastOwnerStays` | apps/api/src/domains/tenants/service.py:206-210 | the last owner can neither leave nor step down |
| `TenantRules.ManagersAreTold` | apps/api/src/domains/tenants/service.py:81-94 | which refusal a manager gets for a role change, and when; of an invitation to revoke, only that it is not found |
| `TenantRules.RemoversAreTold` | apps/api/src/domains/tenants/service.py:104-115 | which refusal comes of a removal, and when |
| `TenantRules.InvitersAreTold` | apps/api/src/domains/tenants/service.py:128-137 | inviting an owner is a bad request; any other refusal of a manager is a conflict |
| `TenantRules.InviteesAreTold` | apps/api/src/domains/tenants/service.py:172-185 | which refusal comes of a token, and when |
| `TenantRules.RanksChange` | apps/api/src/domains/tenants/service.py:74-197 | in every reachable state a rank rises only for a founder, by an admin or owner, or by accepting an invitation of exactly that role; it falls only by the user's own act or a manager's |
| `TenantRules.InvitationsChange` | apps/api/src/domains/tenants/service.py:119-197 | in every reachable state an invitation is made or revoked only by a manager of its organization, accepted only by the one it was sent to, and otherwise stays as it is |
| `Ingestion.IngestDocument` | apps/api/src/domains/documents/ingestion.py:42-72 | the states committed by a run, in order, are `Commits`; it raises iff the document exists and the run fails |
| `Ingestion.RunPipeline` | apps/api/src/domains/documents/ingestion.py:75-119 | raises as `RunError` says without committing anything, or commits the rest of `Commits` |
| `Ingestion.EmbedAll` | apps/api/src/domains/documents/ingestion.py:93-112 | the batch loop stores each chunk with its own vector and records what was paid, or stops at the first failure |
| `Ingestion.AddBatch` | apps/api/src/domains/documents/ingestion.py:103-112 | the strict zip adds the pairs in order and succeeds iff the lengths agree |
| `Ingestion.ExtractMetadata` | apps/api/src/domains/documents/ingestion.py:122-151 | never fails; when the provider raises, everything done so far is committed; when the row of a successful call cannot be flushed, the error comes back at the commit |
| `Ingestion.NewRows` | apps/api/src/domains/documents/ingestion.py:93-112 | a successful run has one row per chunk, the i-th with vector i % 100 of batch i / 100 |
| `Ingestion.RowStored` | apps/api/src/domains/documents/ingestion.py:93-112 | row i of a successful run is chunk i, with its page, position and content, and vector i % 100 of batch i / 100 |
| `Ingestion.SucceedsIff` | apps/api/src/domains/documents/ingestion.py:75-119 | a run succeeds iff the document loads and has text, the old chunks are deleted, every batch of a hundred comes back recorded with one vector for each chunk, and the metadata row can be flushed |
| `Ingestion.WhyItFails` | apps/api/src/domains/documents/ingestion.py:84-90 | which error is told for a document that does not load, has no text or keeps its old chunks |
| `Ingestion.FirstFailureIsTold` | apps/api/src/domains/documents/ingestion.py:93-112 | otherwise the error is that of the first batch that fails, and the batches before it have been paid for |
| `Ingestion.PaidFrom` | apps/api/src/domains/documents/ingestion.py:93-102 | each batch is billed with its own model and tokens, in order |
| `Ingestion.PaidCount` | apps/api/src/domains/documents/ingestion.py:93-102 | one row for every hundred chunks or part of it |
| `Ingestion.ReachedDocument` | apps/api/src/domains/documents/ingestion.py:55-72 | a document is PROCESSING from the first commit of a run; at its last it is FAILED with the error, or READY without one and with the metadata answered, if any |
| `Ingestion.StatusAfterTries` | apps/api/src/domains/documents/ingestion.py:50-72 | after any runs, killed anywhere between commits, the document is FAILED iff the last run that got to a commit failed and got to its second, and READY iff it succeeded and got to its last |
| `Ingestion.EveryCommittedState` | apps/api/src/domains/documents/ingestion.py:55-72 | in every state committed by a run after any others, READY means exactly the rows of its run; otherwise the rows of the last run that committed rows, or already those of the run |
| `Ingestion.RowsAfterTries` | apps/api/src/domains/documents/ingestion.py:50-51 | over runs that may fail anywhere or be killed between any two commits: the rows are all those of the last run that committed rows, other documents' rows never change, and READY marks a run that got to its last commit |
| `Ingestion.PaidUsageSurvivesIff` | apps/api/src/domains/documents/ingestion.py:66-72 | rows of paid embedding calls are in the database after a run iff it succeeds or paid for nothing; a successful run adds them and the row of the metadata call, a failed one nothing |
| `Ingestion.PaidUsageLost` | apps/api/src/domains/documents/ingestion.py:93-102 | a run whose second batch fails has paid for the first and keeps no row of it |
| `UsageTracking.TrackedStream.Next` | apps/api/src/domains/usage/service.py:104-134 | passes on each delta; at a StreamEnd flushes one row with the reported usage; at an error commits one with the estimate |
| `UsageTracking.TrackedStream.Close` | apps/api/src/domains/usage/service.py:122-128 | closing before the StreamEnd commits one row estimated from the characters streamed, and after it nothing |
| `UsageTracking.Record` | apps/api/src/domains/usage/service.py:156-187 | a row is flushed, or committed with all that the session holds |
| `AgentTools.AgentToolbox.Execute` | apps/api/src/domains/chat/agent.py:70-75 | the answer, the usage row and the citations of a tool call |
| `AgentTools.AgentToolbox.Search` | apps/api/src/domains/chat/agent.py:77-108 | the answer, the usage row and the citations of a document search |
| `AgentTools.AgentToolbox.AddCitations` | apps/api/src/domains/chat/agent.py:83-94 | the loop over the hits adds to the citations what `Cite` says |
| `AgentTools.CallEffects` | apps/api/src/domains/chat/agent.py:70-108 | a call leaves a row iff a query was embedded, and raises iff the embedding, the search or the statistics fail |
| `AgentTools.CallAnswers` | apps/api/src/domains/chat/agent.py:70-108 | what the model is told otherwise |
| `AgentTools.CitedAreFirstGoodHits` | apps/api/src/domains/chat/agent.py:86-94 | the citations are exactly the first sufficiently scored hit of each document, page and snippet, in the order of the hits |
| `Agent.Consume` | apps/api/src/domains/chat/agent.py:175-183 | one provider stream followed until it ends or the client closes: events sent, rows left, what is committed |
| `Agent.RunTools` | apps/api/src/domains/chat/agent.py:189-193 | one tool_use event before each call; stops where the client closes or a tool raises |
| `Agent.RunRound` | apps/api/src/domains/chat/agent.py:174-195 | one round: stream, tokens, tools, and the two messages appended |
| `Agent.RunAgent` | apps/api/src/domains/chat/agent.py:156-204 | the loop of at most four rounds refines `Run`: requests, events, rows, citations, tokens, end |
| `Agent.EventStream` | apps/api/src/domains/chat/router.py:124-148 | what the client gets, what is in the database when the request is over, and what the rate limiter is told |
| `AgentRuns.RunAccounts` | apps/api/src/domains/usage/service.py:94-154 | in every run: at most four requests, each with the history and the rounds so far; one row each, with reported usage, or estimated from all deltas read since the last tool call; tokens reported = input + output over the rows with status ok |
| `AgentRuns.LeftRowDetermined` | apps/api/src/domains/usage/service.py:122-128 | the events that a client got before it closed determine the row of the stream it left |
| `AgentRuns.RequestsTranslate` | apps/api/src/domains/chat/agent.py:170-195 | every request of every run can be read back from its translation, calls and results paired |
| `AgentTrace.RunTraced` | apps/api/src/domains/chat/agent.py:156-204 | in every run each call of a tool round is paired with the output of executing that call; and for each way of ending, the events, rows and hits are those of the finished rounds in order, and of the last as far as it came; an answer comes of a completion without tools, or after the fourth round |
| `AgentTrace.RequestSent` | apps/api/src/domains/chat/agent.py:170-195 | the i-th request is the history and then, for each round before it, the completion's own turn and, under the id of each of its calls, what executing that call gave |
| `AgentTrace.FirstRequest` | apps/api/src/domains/chat/agent.py:170-178 | the first request is the history alone |
| `AgentRuns.RowsSurviveEveryClientIff` | apps/api/src/domains/usage/service.py:28-33 | the rows of a turn survive every client iff the first completion calls no tool |
| `AgentRuns.ClosingAtToolUse` | apps/api/src/domains/chat/agent.py:190-192 | a client that closes at the first tool_use event leaves no row of the stream before it |
| `AgentRuns.InterruptedCallsAreFree` | apps/api/src/domains/usage/service.py:139-154 | in every run, a row whose status is not ok costs nothing, whatever was streamed |
| `AgentRuns.LastEventIsLast` | apps/api/src/domains/chat/router.py:125-148 | a done event iff the run has an answer, an error event iff it ended with an LLMError; either once and last; nothing after the event at which the client closes |
| `AgentRuns.ReadVersusStored` | apps/api/src/domains/chat/agent.py:199-204 | the stored answer is the end of the text streamed, and all of it iff no completion before the last one asked for has text |
| `AgentRuns.StoredIsNotWhatWasRead` | apps/api/src/domains/chat/agent.py:186-204 | if the first completion calls tools and has text, every answer stored differs from the text streamed |
| `AgentRuns.DashboardGain` | apps/api/src/domains/usage/repository.py:66-73 | a turn adds to the dashboard's total the exact price of the usage reported in the rows it leaves, within half a micro-dollar for each |
| `Pricing.HalfEven` | apps/api/src/llm/pricing.py:184 | within half a micro-dollar, ties to even |
| `Pricing.CostNearPrice` | apps/api/src/llm/pricing.py:171-184 | the cost is the nearest micro-dollar to the sum of the four token counts at their prices |
| `Pricing.CostsAsPriced` | apps/api/src/llm/pricing.py:171-184 | an entry of the price list is what a million tokens of each kind cost |
| `Pricing.CacheRates` | apps/api/src/llm/pricing.py:13-16 | where writing to a cache costs extra, it costs 1.25 times the input price, and reading from it a tenth |
| `Pricing.CostMonotone` | apps/api/src/llm/pricing.py:171-184 | more tokens of any kind never cost less |
| `Pricing.RowsAddUp` | apps/api/src/llm/pricing.py:171-184 | n rows of one model sum to within (n + 1) / 2 micro-dollars of the cost of their summed usage |
| `Dashboard.DailyCostsGroup` | apps/api/src/domains/usage/repository.py:27-64 | each entry sums the tenant's rows of its UTC day, feature and model in the range, every such row has its entry, and no two entries share these three |
| `Dashboard.DailyCostsAddUp` | apps/api/src/domains/usage/repository.py:27-73 | daily costs, tokens and calls over a range add up to `total_cost` and to the rows |

## Left out

- JSON, UTF-8 and the SHA-256 of tokens: `dumps`, `parse` and `loads` are parameters, inverse to each other and free of raw newlines where a round trip needs it; a token stands for its hash. Malformed JSON from a provider is not modelled.
- Redis that does not answer (the limiter then lets requests pass), two members of the sorted set with the same name, and the score read for Retry-After in a pipeline of its own, which is taken at the instant of the count.
- `effective_limits`, `tokens_used_today`: read off their bodies.
- A change of the tenant's plan or overrides during a run: its two limits stay the same.
- CircuitBreaking.CircuitBreaker.RecordSuccess: its clock reading is ghost, for the history only.
- Concurrent transactions on memberships and documents: every service call, and every ingestion run, is one after the other. `commit` itself does not fail, but for a session whose flush has failed.
- Error texts of a failed ingestion: opaque, with one for the strict zip.
- Lower-casing of emails, invitation tokens drawn by `secrets`, roles other than the three: emails arrive in lower case, a repeated token is a conflict, and a profile without email has the empty one.
- How a close reaches the inner generators: here at once and from the outside in; in Python through the event loop's finalizer, possibly when the session is already closed. Cancellation of the task is not modelled either.
- The rows' latency and timestamps, spans and logs; `tracked_complete` as a member of its own (its rows appear in `Ingestion.ExtractMetadata`).
- The model's name in a streamed completion: `StreamAssembly.StreamingIsComplete` leaves it out, since `complete` takes it from the response.
- Decimal precision beyond 28 digits and the width of the cost column; the order of `daily_costs`.
- The fields of a citation sent to the browser: the done event carries the citations as the toolbox holds them.
- Retrieval ranking, the models' answers, PDF extraction: whatever they give is quantified over.
- The user interface, authentication, billing, provider settings, catalog and deployment: settled by single branches or without algorithm.
