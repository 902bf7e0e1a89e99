# Guild graph service: a verified model of its core

This project models three parts of a web service that shows a chat
community ("guild") as a graph of who interacts with whom.

- **The outbound request coordinator** (`lib/discord.ts`): every call to
  the chat service's HTTP API goes through it. It keeps four maps:
  in-flight requests by request key, the head-of-line request per
  rate-limit key, the server's bucket id per rate-limit key, and each
  bucket's reset time and remaining count. A call passes a gate that may
  make it wait, records the rate-limit headers of the response, and
  retries 429 and 5xx answers. A response that ends the chain of retries
  (neither a 429 nor a 5xx within the retry budget) schedules a sweep, which
  drops the bindings to long-expired buckets. Identical requests share one
  promise, and a success keeps it shared for a further five seconds.
- **The guild list endpoint** (`pages/api/servers.ts`): it compares the
  guild ids remembered in the session with the ones the chat service
  reports. It projects each guild to what the client sees (manage bit,
  icon addresses), sorts the guilds by name, and splits them into guilds
  that have the bot, guilds the user may add it to, and the rest.
- **The graph aggregation** (`components/guildGraph.tsx`): it folds pages
  of relationship events into node and link weights under a decaying
  budget, with an early stop. It filters links and nodes by thresholds,
  builds sibling sets, decides whether to ask for another page, computes
  the next page's address, and decides which nodes are drawn faded.

Files:

- `common.dfy`: an Option type, string prefix and suffix tests, the
  code-unit string order, and an insertion sort standing for the
  engine's sort.
- `rate_limit.dfy`: module `RateLimit`. The coordinator's decisions as
  pure functions: the gate, bucket recording, status classification,
  retry delays and the expiry sweep.
- `discord_client.dfy`: module `DiscordClient`. Class `Coordinator` holds
  the four maps as fields. Each of its methods is one step between two
  `await`s. The module also has the 404 wrappers and the two
  scenarios behind the second finding.
- `servers.dfy`: module `Servers`.
- `guild_graph.dfy`: module `GuildGraph`.

How the model represents the program:

- A promise is a handle number, allocated in the order requests are
  issued.
- Every `await` ends a step. The environment supplies the clock (`now`,
  in milliseconds) and the response (status, the three rate-limit
  headers, the body's `retry_after`).
- Delays are returned as durations, not slept.

The model follows the code in these places, where a natural reading of
the behaviour would differ:

- The head-of-line entry is set for every new request (line 165). On
  settling it is deleted by key (line 170), whoever owns it by then.
- The sweep deletes only bindings (lines 131-135). Bucket records are
  never removed.
- Line 64 compares the bucket header with the bucket id the call read at
  its gate, not with the binding stored now.
- An empty icon string counts as no icon (`icon ? … : null`).
- `excludeBots` has no default (`config.excludeBots &&`): an absent
  setting includes bots.
- A configured weight of zero wins over the default, because `??`
  replaces only null and undefined.

## Model

| member | source | states |
|---|---|---|
| RateLimit.KnownBucket | lib/discord.ts:9-12 | a bucket is known exactly when the key has a binding and the bound id has a record, and it is that record |
| RateLimit.GateDecision | lib/discord.ts:14-54 | as written: waits on the head-of-line request exactly when no bucket is known and an entry exists; waits exactly `resetAt - now` when a known bucket is used up and its reset lies ahead; otherwise dispatches |
| RateLimit.NoDispatchBeforeReset | lib/discord.ts:40-41 | a used-up bucket whose reset is in the future makes the call wait exactly until the reset |
| RateLimit.ResetWaitSuffices | lib/discord.ts:40-49 | re-gating once the requested delay has passed lets the call through, if the bucket was not refreshed meanwhile |
| RateLimit.KnownBucketIgnoresHeadOfLine | lib/discord.ts:15-36 | with a known bucket, the head-of-line entry never affects the decision |
| RateLimit.GateDecisionFor | lib/discord.ts:15-30 | corrected gate: waits on the head-of-line request only if it was issued before the caller's own; otherwise as above |
| RateLimit.CorrectionOnlyAffectsRetries | lib/discord.ts:160-165 | at a request's first gate every head-of-line handle is older than its own, so the corrected gate agrees with the original one |
| RateLimit.WaitChainsDescend | lib/discord.ts:15-30 | for any chain of calls in which each call's corrected gate tells it to wait on the next call's request, the handles strictly decrease along the chain, so no handle occurs twice and the chain never returns to its start |
| RateLimit.Reserve | lib/discord.ts:53 | the dispatching bucket's remaining count drops by exactly one; no other record and no reset time changes |
| RateLimit.BucketsAfterGate | lib/discord.ts:36-54 | only a dispatch against a known bucket changes a record, and only that record |
| RateLimit.BucketIdAfter | lib/discord.ts:63-67 | the call continues with the header's bucket id when there is one, else with the id read at the gate |
| RateLimit.BindingsAfter | lib/discord.ts:63-67 | the bindings change only for a bucket header differing from the gate-time id; then only this key is rebound, to it |
| RateLimit.UpdateBucket | lib/discord.ts:70-81 | as written: no record is written unless a bucket id and both headers are present; then, when line 79's test passes against the given comparison record (nothing to compare with, a different reset time, or a strictly lower count), the record becomes `{reset * 1000 + 500, remaining}`, and otherwise the records are unchanged; no other bucket id is touched |
| RateLimit.StaleCaptureRaisesRemaining | lib/discord.ts:79 | two responses with the same reset time, compared with the record seen at the gate, raise the stored count from 1 to 3 |
| RateLimit.RecordHeaders | lib/discord.ts:69-82 | corrected: the new reset time is `reset * 1000 + 500`; for an equal stored reset time the count becomes the lower of the two; otherwise the record is replaced wholesale; other ids are unchanged |
| RateLimit.CurrentRecordKeepsLower | lib/discord.ts:77-81 | the input of the counterexample leaves count 1 under the corrected rule |
| RateLimit.SameWindowKeepsLowest | lib/discord.ts:77-81 | for any arrival order of responses for the stored reset time, the final count is at most every count involved and equal to one of them |
| RateLimit.Classify | lib/discord.ts:95-145 | 429 exactly gives a same-attempt retry; a 5xx with `attempt + 1 < 3` exactly gives a retry with attempt + 1; an ok status exactly succeeds; everything else fails |
| RateLimit.RateLimitDelay | lib/discord.ts:98-100 | the 429 wait is the server's `retry_after` in ms plus exactly 500 ms, so at least 500 ms for a non-negative `retry_after` |
| RateLimit.ServerErrorDelay | lib/discord.ts:107-112 | the 5xx backoff is 100 ms at attempt 0 and grows tenfold with each attempt |
| RateLimit.ServerErrorDelays | lib/discord.ts:106-115 | the backoffs are 100 ms and then 1000 ms, and no 5xx retry is offered from attempt 2 on |
| RateLimit.RunChain | lib/discord.ts:95-116 | a chain of retries settles only on success or failure, after between one and all of the given responses |
| RateLimit.ServerErrorBudget | lib/discord.ts:106-116 | a chain that meets its third 5xx settles, having consumed at most three 5xx answers; 429s do not count |
| RateLimit.ServerErrorExamples | lib/discord.ts:95-116 | three 500s fail with 500 on the third call; two 500s then a 200 succeed on the third; leading 429s add calls but not attempts |
| RateLimit.ExpiredIds | lib/discord.ts:122-128 | exactly the bucket ids whose reset time lies more than 1800000 ms before now |
| RateLimit.LiveBindings | lib/discord.ts:131-135 | exactly the bindings not pointing at an expired id are kept, unchanged |
| RateLimit.SweepSettles | lib/discord.ts:118-136 | a second sweep at the same time removes nothing, and a later sweep keeps no more bindings |
| RateLimit.SweepLeavesNoExpiredBinding | lib/discord.ts:118-136 | after a sweep no key leads to an expired bucket |
| DiscordClient.JoinKey | lib/discord.ts:151 | the key is the authorization header, a space, then the path |
| DiscordClient.JoinKeyInjective | lib/discord.ts:151-159 | under one authorization header, equal keys mean equal paths |
| DiscordClient.AfterResponse | lib/discord.ts:95-145 | 429 exactly retries the same call after `retry_after * 1000 + 500` ms; a 5xx within budget exactly retries with attempt + 1 after the backoff; a retry keeps the request and rate-limit keys; an ok status exactly succeeds; any other status settles with that status as the error |
| DiscordClient.Coordinator.constructor | lib/discord.ts:3-5 | all four maps start empty |
| DiscordClient.Coordinator.Gate | lib/discord.ts:9-54 | the decision is the corrected gate on the current state; the id read at the gate is returned; only the gated bucket is reserved, and only on a dispatch |
| DiscordClient.Coordinator.Receive | lib/discord.ts:62-145 | the bindings and records become `BindingsAfter` and `RecordHeaders` of the response; the next step is `AfterResponse`; nothing else changes |
| DiscordClient.Coordinator.Request | lib/discord.ts:150-165 | a pending request key returns the existing handle and changes nothing; otherwise a new call with attempt 0 runs the original gate and is then registered as pending and as head of line under a fresh handle |
| DiscordClient.Coordinator.Settle | lib/discord.ts:167-181 | settling removes the head-of-line entry; a failure also removes the pending entry and asks for no debounce; a success keeps the pending entry and returns the debounce delay of 5000 ms |
| DiscordClient.Coordinator.EndDebounce | lib/discord.ts:172-180 | the step run when the 5000 ms returned by `Settle` have passed: the pending entry is removed, and nothing else |
| DiscordClient.Coordinator.Sweep | lib/discord.ts:118-136 | the bindings become `LiveBindings` at `now`; the records and the other maps are unchanged |
| DiscordClient.CollectExpired | lib/discord.ts:122-128 | the loop collects exactly `ExpiredIds` |
| DiscordClient.SelfWaitScenario | lib/discord.ts:15-30 | a first request answered 502 without rate-limit headers: as written its retry waits on its own handle; the corrected gate dispatches it |
| DiscordClient.WaitCycleScenario | lib/discord.ts:15-30 | two lookups under one rate-limit key: the second waits on the first; as written the first's retry then waits on the second; the corrected gate dispatches it |
| DiscordClient.QueuedSelfWaitScenario | lib/discord.ts:15-30 | no retry needed: the second of two lookups waits on the first; the first succeeds without rate-limit headers; as written the second's next gate, which runs before line 170, waits on its own handle; the corrected gate dispatches it |
| DiscordClient.NullIfNotFound | lib/discord.ts:234-262 | exactly an HTTP 404 becomes null; a success is the body; every other failure is rethrown unchanged |
| DiscordClient.UserLookupsDedupPerUser | lib/discord.ts:234-236 | two user lookups with one token are the same request exactly when they are for the same user |
| DiscordClient.MemberLookupsDedupPerUser | lib/discord.ts:252-254 | two member lookups in one guild are the same request exactly when they are for the same user |
| DiscordClient.MemberRateLimitKeyPerGuild | lib/discord.ts:252-254 | two member lookups with one token share a rate-limit key exactly when they are in the same guild |
| Common.SortByPermutes | pages/api/servers.ts:32-33 | sorting keeps the multiset of elements |
| Common.SortBySorted | pages/api/servers.ts:32-33 | sorting under a total preorder gives a sorted sequence |
| Common.SortByAgrees | pages/api/servers.ts:32-41 | under a total order, two sorted copies agree exactly when the inputs are equal as multisets |
| Common.StringLeIsTotalOrder | pages/api/servers.ts:32-33 | the code-unit order of the default sort is a total order |
| Servers.CompareGuildIdArrays | pages/api/servers.ts:26-42 | different lengths give false; the result is true exactly when the lists are equal as multisets, and exactly when their sorted copies agree |
| Servers.ElementwiseEqual | pages/api/servers.ts:35-41 | the indexed loop returns true exactly when the two equal-length lists are equal |
| Servers.CanManageIsBitThree | pages/api/servers.ts:68 | the manage test holds exactly when bit 3 (value 8) of the permissions is set |
| Servers.CanManageIgnoresHigherBits | pages/api/servers.ts:68 | adding any multiple of 16 to the permissions does not change the manage test |
| Servers.Project | pages/api/servers.ts:63-72 | id and name are kept; the manage flag is bit 3; both icon addresses are null exactly when there is no non-empty icon; both addresses start with the CDN icon base, the guild id and the icon; the icon address ends in `.png`; the hover address ends in `.gif` exactly when the icon starts with `a_`, else in `.png` |
| Servers.IconUrlFacts | pages/api/servers.ts:64-70 | the suffix facts of the two icon addresses |
| Servers.IconUrlNamesIcon | pages/api/servers.ts:69-70 | both addresses start with the CDN icon base, the guild id and the icon |
| Servers.ProjectAll | pages/api/servers.ts:63 | one projected guild per guild, in order |
| Servers.InGroupMembers | pages/api/servers.ts:85-93 | a guild is in a group exactly when it occurs in the input and that group is its group (bot first, then manage) |
| Servers.GroupsPartition | pages/api/servers.ts:85-93 | the three groups together hold every input guild exactly as often as it occurs |
| Servers.GroupGuilds | pages/api/servers.ts:85-93 | the loop builds each group as the in-order subsequence of its guilds, and the sizes add up to the input's |
| Servers.HandleServers | pages/api/servers.ts:44-95 | no token gives the 403 reply; otherwise the refresh flag is set exactly when the token's ids and the fetched ids differ as multisets, and the groups are those of the name-sorted projection |
| Servers.SortedClientGuilds | pages/api/servers.ts:74 | the sorted list is a reordering of the projection, in name order |
| GuildGraph.Resolve | components/guildGraph.tsx:207-210 | bots are excluded exactly when the setting is true; an absent decay amount, decay threshold, link threshold or node threshold is 0.001, 0.6, 2.0 or 4.0, a present one is used as is; the configured weights are passed on unchanged |
| GuildGraph.WeightKey | components/guildGraph.tsx:198-205 | a weight key exists exactly for reasons 1 to 5 |
| GuildGraph.EventWeight | components/guildGraph.tsx:243 | a configured weight wins, even zero; otherwise the default |
| GuildGraph.DefaultWeightsPositive | lib/guildGraphConfig.ts:20-26 | without configured weights every keyed event has positive weight |
| GuildGraph.AddWeight | components/guildGraph.tsx:254-258 | the key's total grows by the weight; every other total is unchanged |
| GuildGraph.LinkKey | components/guildGraph.tsx:257 | every link key contains a colon |
| GuildGraph.SplitColon | components/guildGraph.tsx:291 | the parts are colon-free and joined with `:` give back the string; there are two or more parts exactly when the string holds a colon |
| GuildGraph.LinkEnds | components/guildGraph.tsx:291 | both ends are colon-free, and a key with exactly one colon is the two ends joined by it |
| GuildGraph.SortedJoin | components/guildGraph.tsx:257 | the link key is the sorted pair joined by a colon |
| GuildGraph.LinkKeySymmetric | components/guildGraph.tsx:257 | the key of (s, t) equals the key of (t, s) |
| GuildGraph.LinkKeyRoundTrip | components/guildGraph.tsx:257-292 | for colon-free ids, splitting the key gives back the two ids in sorted order |
| GuildGraph.AddUsers | components/guildGraph.tsx:225-227 | afterwards the known ids are the old ones and the page's; an id maps to the last member of the page with it; an id the page does not mention keeps its old member |
| GuildGraph.Included | components/guildGraph.tsx:238-252 | an event without a weight key is skipped; an event whose weight (configured, else default) is not positive is skipped; under bot exclusion an event with a bot end is skipped; an event with a key, a positive weight and no excluded bot end is included; without configured weights and without bot exclusion every event with a weight key is included |
| GuildGraph.EventStep | components/guildGraph.tsx:230-262 | every event counts as processed and sets the oldest timestamp, and the newest the first time; a skipped event changes no node, link, decay or included count; an included one adds one to the included count and lowers decay by weight times decayAmount |
| GuildGraph.IncludedEventAdds | components/guildGraph.tsx:248-258 | an included event adds `eventWeight * decay` to both ends (twice when they coincide) and to its link key, and changes no other total |
| GuildGraph.RunEvents | components/guildGraph.tsx:229-267 | the reference fold over one page's events in order, stopping after an included event that brings decay to the threshold or below; it never changes the known members, and keeps every link key colon-bearing |
| GuildGraph.RunPages | components/guildGraph.tsx:224-272 | the reference fold over the pages: each page's members, then its events; stops after a page that ends with decay at the threshold or below; keeps every link key colon-bearing |
| GuildGraph.EventCountersOrdered | components/guildGraph.tsx:229-267 | a page's events raise processed by at most their number and included by no more than processed |
| GuildGraph.CountersOrdered | components/guildGraph.tsx:220-272 | over all pages, included ≤ processed ≤ loaded |
| GuildGraph.StoppedEventsIgnoreRest | components/guildGraph.tsx:264-266 | a page's run that stops before its last event has exhausted the budget, and events appended after it change nothing |
| GuildGraph.OpenEventsProcessAll | components/guildGraph.tsx:229-267 | if the budget is still open afterwards, every event of the page was processed |
| GuildGraph.StoppedPagesIgnoreRest | components/guildGraph.tsx:269-271 | once a page ends with the budget exhausted, the later pages are never looked at |
| GuildGraph.OpenPagesProcessAll | components/guildGraph.tsx:224-272 | if the budget is still open at the end, every loaded event was processed |
| GuildGraph.RequestMore | components/guildGraph.tsx:279-286 | another page is requested exactly when decay is above the threshold and the last page holds as many events as its limit; the size is one more than the page count |
| GuildGraph.KeptLinksMeetThresholds | components/guildGraph.tsx:290-294 | a link is output exactly when it passes both thresholds; its weight is the link total and both ends have totals at least the node threshold |
| GuildGraph.SiblingMapAdd | components/guildGraph.tsx:295-298 | keeping one more link adds each end to the other's siblings |
| GuildGraph.KeptAmongKeep | components/guildGraph.tsx:293-295 | a link that passes the filter is added under its key |
| GuildGraph.KeptAmongSkip | components/guildGraph.tsx:293-295 | a link that fails the filter adds nothing |
| GuildGraph.ConsiderLink | components/guildGraph.tsx:290-299 | one link total extends the kept links and the sibling map exactly as the filter and the sibling updates do |
| GuildGraph.LinkStage | components/guildGraph.tsx:288-301 | the loop yields exactly the kept links, and the sibling map of those links |
| GuildGraph.SiblingsOfMap | components/guildGraph.tsx:297-307 | a node's siblings are exactly the other ends of its kept links |
| GuildGraph.SiblingsSymmetric | components/guildGraph.tsx:297-298 | t is a sibling of s exactly when s is a sibling of t |
| GuildGraph.NodeStage | components/guildGraph.tsx:303-311 | a node is output exactly when its total reaches the node threshold and it has a sibling; it carries its total, its siblings, its avatar and its nickname or else its id |
| GuildGraph.TransparencyMutual | components/guildGraph.tsx:80 | between two output nodes, selecting either fades the other or neither |
| GuildGraph.OpaqueExactlyNearSelection | components/guildGraph.tsx:80 | under a selection a node stays opaque exactly when it is the selection or shares a kept link with it |
| GuildGraph.FoldEvents | components/guildGraph.tsx:229-267 | the events loop with its `continue`s and `break` computes `RunEvents` |
| GuildGraph.FoldPages | components/guildGraph.tsx:212-272 | the pages loop, with its members loop and its `break`, computes `RunPages` from the empty state |
| GuildGraph.ComputeGraphData | components/guildGraph.tsx:197-327 | the output is the link stage and node stage of the fold; included ≤ processed ≤ loaded; a further page is requested only after every loaded event was processed |
| GuildGraph.GetKey | components/guildGraph.tsx:34-49 | no key exactly after a page with fewer events than its limit; otherwise `limit=1000`, with `before=` the last event's timestamp when the previous page has events |
| GuildGraph.MoreRequestedMeansMoreKeyed | components/guildGraph.tsx:34-49 | when the graph asks for another page, the paging key does produce one, cursored at the last event |

## Left out

- `fetch`, `response.json()` and `setTimeout` are left out: a response is a parameter and a delay is a returned duration. A body that is not JSON makes line 90 throw before the status is looked at, so in the source such a 5xx is not retried; the model reads every response as parsed and retries every 5xx within the budget. The scheduling of promise callbacks and timers is left to the caller, who picks which step runs next.
- Which promise a joining caller receives is left out: a joined request gives back only the pending handle.
- The credential strings (`makeDiscordRequestAsUser`, `makeDiscordRequestAsApp`, `process.env`) are left out; the authorization header is a parameter. The app header is written as `"Bot " + token`.
- A network failure becomes the `NetworkError` outcome. The model does not follow how it travels through the awaits.
- `parseInt` and `parseFloat` of the headers, and of the event timestamps, are left out: the headers arrive as numbers, timestamps stay strings. Floating-point rounding is replaced by exact reals.
- Percent-encoding by `URLSearchParams` is left out: `GetKey` writes the timestamp unencoded.
- `localeCompare` is a comparison given by the caller. The sort is not proved stable, so the order of guilds with equal names within a group is not stated. `BigInt(permissions)` is a natural number.
- lib/db.ts, the session lookup and the database connection are inputs: `withBot` and the token's guild ids. A present token without guild ids is not modelled.
- Output array order in `computeGraphData` is left out: output links and nodes are maps by key and id, not arrays in `Map` insertion order. `nodeCount` is the size of the node map.
- A null avatar and a null nickname are left out: members carry strings.
- Old bucket objects are not modelled by reference. Records are values in a map, so the in-place `remaining -= 1` is an update of the stored record. An object another call still holds is what `UpdateBucket`'s explicit comparison record stands for.
- DiscordClient.Coordinator.Gate and DiscordClient.Coordinator.Receive use the corrected rules of the two findings below, not the code as written. `Request` runs the original gate, as the corrected one agrees with it there.
- All UI, three.js, SWR and React code is left out, apart from the transparency rule and the paging key.

## Findings

| source | as written | input that shows it | evidently intended | confidence | as-written member | corrected member |
|---|---|---|---|---|---|---|
| lib/discord.ts:79 | the new counts are compared with the bucket object the call read at its gate (lines 10-11), which a racing response may since have replaced | the record seen at both gates is `{resetAt 1000, remaining 0}`; the responses `(b, remaining 1, reset 5)` then `(b, remaining 3, reset 5)` leave `{resetAt 5500, remaining 3}` | for an equal reset time, keep the lower count (the comment at lines 77-78) | not executed | RateLimit.UpdateBucket, RateLimit.StaleCaptureRaisesRemaining | RateLimit.RecordHeaders, RateLimit.SameWindowKeepsLowest, RateLimit.CurrentRecordKeepsLower |
| lib/discord.ts:15-30 | a call gating again with no known bucket waits on its key's head-of-line promise. Line 165 set that promise to the call's own request, or to a later request that waits on it | one request under `/users/_` answered 502 with a JSON body and without rate-limit headers: its retry awaits its own promise. Or `/users/1` then `/users/2`: the second waits on the first and takes over the head of line, then the first's 502 retry waits on the second. Without any retry: `/users/1` then `/users/2`, and the first succeeds without rate-limit headers. The second's wait ends and it gates again before line 170 deletes the entry, which line 165 set to the second: it waits on itself | a call never waits on its own request or on a later one | not executed | RateLimit.GateDecision, DiscordClient.SelfWaitScenario, DiscordClient.WaitCycleScenario, DiscordClient.QueuedSelfWaitScenario | RateLimit.GateDecisionFor, RateLimit.WaitChainsDescend, RateLimit.CorrectionOnlyAffectsRetries |
