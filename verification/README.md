# Holloway: a verified model of the relay

Holloway is a store-and-forward webhook relay. Providers post webhooks to `/hook/<token>/...`; the server
stores each one and forwards it over a tunnel to a client program, which calls a local application. This
project models the server's protocol and the data structures under it in Dafny, and proves what they keep in
every run. `dafny verify dfyconfig.toml` checks everything.

## How the model is built

| Files | Source | Form |
|---|---|---|
| `Tunnel`, `TunnelProofs`, `TunnelTheorems` | `internal/relay/ws_client.go`, `cmd/holloway/main.go` | step machine of one connection: any number of `Send` calls, the read loop, `Close`, and the client program's loop |
| `WSClient` | `internal/relay/ws_client.go` | the same object as a class, one method per critical section, each proved to do to the fields what the machine's steps do |
| `Relay`, `RelayProofs`, `RelayTheorems`, `DedupTheorems`, `HubTheorems` | `internal/relay/handlers.go`, `delivery.go`, `hub.go` | transition system: hook, drain, replay, tunnel and deletion processes, retention, dropped connections and restarts of the server, interleaved at store calls, hub lock sections, the two ends of a Send, and closes |
| `EndToEnd` | `internal/relay/ws_client.go`, `internal/relay/delivery.go`, `cmd/holloway/main.go` | the transition system and a tunnel machine for every client, run together: each Send is a call on its client's connection |
| `Handlers`, `Delivering`, `Hub` | `internal/relay/handlers.go`, `delivery.go`, `hub.go` | the handlers, loops and the hub as imperative code, proved against functions and tied to the transition system |
| `TimedDrain` | `internal/relay/server.go`, `delivery.go` | the transition system with a clock |
| `RateLimiter`, `RateLimiterProofs` | `internal/relay/ratelimit.go`, `auth.go` | class with a pruned map; 64-bit durations |
| `Store`, `Retention`, `ReplaySelection`, `Filter` | `internal/store/webhooks.go`, `internal/dashboard/handler.go`, `cmd/holloway-server/main.go` | a table class whose methods are the SQL statements; in-place compaction; the filter compiler |
| `Timestamps`, `Decimal`, `Lexical` | `internal/store/db.go` | fixed-width timestamps, number printing, text order |
| `Dedup` | `internal/relay/util.go` | hook path parser and dedup key |
| `Broker` | `internal/dashboard/broker.go` | class with a publish loop, and every interleaving of it |
| `Message`, `Wrappers`, `Sets`, `Ints` | `internal/tunnel/message.go`, `internal/store/db.go` | shared datatypes, set sizes, 64-bit integers |

The relay's transition system leaves open what a `Send` returns; its theorems hold whatever it does. `EndToEnd` runs
every Send through its tunnel, and there a recorded status was given by the local application to the row's request.

The dedup key is the text of a digest: any function from texts to 64 characters, so collisions exist. No theorem
assumes there are none; where they matter, the exact condition is part of the statement.

The relay's state carries a history (rows as first stored, marks committed, Sends begun and returned, deliveries
received, clients displaced). Steps use it only to draw fresh ids and clients and to number Sends; theorems speak of it.

## What the code does not do

Where a property fails, the code is modelled as it is and the exact condition is proved.

- Correlation needs at most 2^64 Sends on one connection: one more reuses an id, and a call can then receive the
  answer to another (`TunnelTheorems.CorrelationLimit`), an earlier call can lose its wake-up
  (`TunnelTheorems.WakeupLimit`), and a response that is not a repeat can be dropped (`TunnelTheorems.RepeatLimit`).
- Dedup counts distinct deliveries exactly as long as no two of a token's deliveries share a key
  (`DedupTheorems.DedupCountsDeliveries`); of two that do, the second is answered 202 and stored nowhere
  (`DedupTheorems.SharedKeyLosesDelivery`). Paths are percent-decoded before hashing, so one can contain NUL, and then
  different deliveries are hashed as one text (`Dedup.DeliveriesCollide`, `DedupTheorems.NulLosesDelivery`). Without
  NUL only a collision of the hash can do that (`DedupTheorems.NulFreeIsSeparate`).
- `-2 * l.window` wraps for a window over 2^62 nanoseconds, and then every entry is pruned at once
  (`RateLimiterProofs.WrapShows`). The clock is read before the lock is taken; call times may be out of order by
  at most half a window, rounded up (`RateLimiterProofs.DisorderShows`). While entries are wiped nothing bounds
  admissions (`RateLimiterProofs.AdmissionLimit`).
- Rounding `Retry-After` up overflows in the last second of the 64-bit range (`RateLimiter.RetryAfterRoundsUp`).
- With a limit of 0, or a negative one that the excluded ids make up for, `LastWebhooksForTokenExcluding` is never
  stopped by its break test; and its 64-bit sum of limit and excluded ids can wrap, and then it selects nothing
  (`ReplaySelection.SelectionLimit`). The relay asks with positive limits only, but with any: `?replay=` with a number
  of 2^63-1 or more gives 2^63-1, and after one drained delivery nothing is replayed
  (`ReplaySelection.GreatestLimitSelectsNothing`).
- Comparing timestamps as text, which `internal/store/webhooks.go` calls chronological, is so up to the year 9999
  (`Timestamps.TextOrderRange`). Stored times do not pass it, but the dashboard's upper bound does: for the last day
  9999-12-31 it is 10000-01-01, which sorts like 1001-01-01 and hides every row since. That day, a last day of
  0000-12-31 and a first day of 0001-01-01, which make the zero time that means no bound, are the only dates that go
  wrong (`Filter.DashboardLimit`; for any bounds `Filter.WebhookWhere`).
- Go's parser also takes a one-digit hour, a comma before the fraction and a sign in it; such texts print back
  differently (`Timestamps.FormatInvertsParse`).
- A filter text containing `%` or `_` is a pattern, not a substring (`Filter.LikeIsContainment`).
- The age floor of the periodic drain excludes races with live forwards exactly when it is at least the time a hook
  takes to start its forward plus the forward timeout (`TimedDrain.AgeFloorExcludes`).

## Model

| member | source | states |
|---|---|---|
| TunnelTheorems.CorrelationLimit | internal/relay/ws_client.go:38-75 | for all n: in every run that hands out at most n ids, each Send that returns a response returns what the client computed for that very request, sent once, exactly when n is at most 2^64 |
| TunnelTheorems.InvCorrelates | cmd/holloway/main.go:112-168 | the run invariant implies correlation: the id echo of every branch of the local forward leads each response back to the request it answers |
| TunnelTheorems.CallSendsItsRequest | internal/relay/ws_client.go:38-44 | whatever runs in between, a call's request keeps the content it was called with, apart from the correlation id |
| TunnelTheorems.ClosedForGood | internal/relay/ws_client.go:116-125 | in every reachable state, however many ids were handed out, a closed connection stays closed, and once the lock is let go the pending map is empty and stays empty |
| TunnelTheorems.CallsLeaveNothing | internal/relay/ws_client.go:56-74 | in every reachable state, however many ids were handed out, a call that came back has no pending entry left, and one that gave up waiting or was refused leaves the connection closed |
| TunnelTheorems.ReasonsAreTrue | internal/relay/ws_client.go:46-74 | a call comes back with what happened to it: the answer in its slot, client closed only from a closed connection, a write error only from a failed write, a passed deadline only after the connection was closed |
| TunnelTheorems.ReadErrorEnds | internal/relay/ws_client.go:86-95 | after a read error nothing more is read in any run, and the read loop is gone only once the connection is closed |
| TunnelTheorems.WakeupLimit | internal/relay/ws_client.go:46-74 | for all n: in every run that hands out at most n ids, on an open connection every waiting Send has its own pending entry and its answer, once computed, is on the wire, with the reader, or in its slot, exactly when n is at most 2^64 |
| TunnelTheorems.RepeatLimit | internal/relay/ws_client.go:90-107 | for all n: in every run that hands out at most n ids, any two responses to one id on the wire, with the reader, in a slot or returned are equal, and the read loop drops one only when the slot holds that very response or no open call waits under its id, exactly when n is at most 2^64 |
| TunnelTheorems.ResultsAreFinal | internal/relay/ws_client.go:56-74 | from any state, once a call has its result no later step, of a late or repeated response included, changes it |
| EndToEnd.RowsRecordLocalAnswers | internal/relay/delivery.go:63-84 | in every run of relay and tunnels together, with at most 2^64 ids a connection, the status of a delivered row is the one the local application gave, and its body the first 1048576 characters of the body it gave, to a request with that row's method, path, headers, body and receive time, over a client of its token |
| EndToEnd.ProvidersGetLocalAnswers | internal/relay/handlers.go:79-124 | a local answer given to a provider is the status and the first 1048576 characters of the body that the local application gave to a request carrying its own row or, under dedup, one holding its key |
| EndToEnd.StatusIsLocal | cmd/holloway/main.go:137-168 | the client program passes on exactly the status the local application gave and the beginning of its body; whatever else happens the response has status 0, no body and the reason; the id is the request's |
| EndToEnd.ClosedClientsAreClosed | internal/relay/ws_client.go:81-84 | in every run of the whole, restarts included, a client that the relay counts as closed has a closed connection with nothing pending |
| EndToEnd.WorldMoves | internal/relay/ws_client.go:38-75 | every move of the server, restarts included, or of a connection keeps: each Send begun is a call with its content on its client's connection, each response returned is what that call came to, and a client counted as closed has a closed connection |
| TunnelTheorems.ReaderNeverBlocks | internal/relay/ws_client.go:86-108 | the read loop deals with any message, wanted or not, in at most three steps of its own once the lock is free, with no Send moving |
| TunnelTheorems.CanAlwaysReturn | internal/relay/ws_client.go:56-74 | every call can come back within six steps of its own and of Close, whatever the peer and the read loop do |
| TunnelTheorems.AnswerCanArrive | internal/relay/ws_client.go:63-68 | a waiting call whose answer was computed can be given exactly that answer by steps of the read loop and its own last two |
| TunnelProofs.IdsDistinct | internal/relay/ws_client.go:43 | n ids in a row are pairwise distinct exactly when n is at most 2^64 |
| TunnelProofs.InvKept | internal/relay/ws_client.go:38-125 | every step of every Send, of the read loop, of Close and of the peer keeps the connection invariant |
| WSClient.Client.NextId | internal/relay/ws_client.go:43 | the counter wraps at 2^64, the id is its decimal text, and the object keeps showing the machine's state |
| WSClient.Client.Insert | internal/relay/ws_client.go:46-54 | refused exactly when closed; otherwise only this id's entry changes, as in the machine's insert step |
| WSClient.Client.RemovePending | internal/relay/ws_client.go:110-114 | exactly this id leaves the pending map, as in the machine's remove step |
| WSClient.Client.ClosePending | internal/relay/ws_client.go:116-125 | afterwards closed with an empty pending map; the first call is the machine's close, a later one changes nothing |
| WSClient.Client.Route | internal/relay/ws_client.go:90-107 | only the slot of the response's id can change and only if empty; the whole turn is the machine's read, lookup and offer |
| RelayTheorems.RelayRefinesLedger | internal/relay/handlers.go:58-105 | every interleaving of hooks, drains, replays, tunnels, deletions, retention and restarts is a run of the ledger of waiting and answered webhooks |
| RelayTheorems.StepIsLedgerStep | internal/relay/delivery.go:63-121 | every single step is the one ledger step its effect names, and the stored table then shows that ledger |
| RelayTheorems.LedgerLaws | internal/store/webhooks.go:104-113 | in every ledger run an answer is never taken back, an entry leaves only by being forgotten, and a forgotten id does not return |
| RelayTheorems.StatusNeverReturnsToPending | internal/store/webhooks.go:104-113 | between any two states of a run a row still there that was delivered is delivered |
| RelayTheorems.OnlyRetentionRemoves | internal/store/webhooks.go:115-147 | a step removes a row exactly when it is an age sweep whose cutoff is after its receipt or a count sweep that numbers it over the maximum |
| RelayTheorems.RowTellsLastMark | internal/relay/delivery.go:67-75 | in every reachable state a row is pending exactly when no mark committed for it, and otherwise its status and body are the last mark's, which a Send of that same id returned and which is not 0 |
| RelayTheorems.AnswersRestOnRows | internal/relay/handlers.go:58-105 | a request answered 202 or with a local status has a row stored before: its own, or under dedup one holding its key; the row is there unless retention removed it |
| RelayTheorems.AnswersHaveOwnRows | internal/relay/handlers.go:46-70 | without dedup no two requests are answered for the same row |
| RelayTheorems.AnsweredStaysStored | internal/relay/handlers.go:72-78 | after any further run, restarts included, the row a request was answered for is there with the same request, unless retention removed it |
| RelayTheorems.LocalAnswersWereReturned | internal/relay/handlers.go:90-124 | a local status and body were returned, non-zero, by a Send of this request's row or, under dedup, of one holding its key |
| RelayTheorems.SendsAreFaithful | internal/relay/delivery.go:123-133 | every live, drained or replayed Send has the method, path, headers, body and receive time its row was stored with and still has, under the row's id, and goes to a client of that row's token after the insert |
| RelayTheorems.ReplaysSaySo | internal/relay/delivery.go:98-106 | a request says it is a replay exactly when it is a manual replay or of the replay phase; only the ingress sends live |
| RelayTheorems.HooksStoreArrivals | internal/relay/handlers.go:46-57 | what a hook stores has the token, method, path, headers, body and receive time that arrived, is pending and under the delivery's key |
| RelayTheorems.RequestsNeverChange | internal/store/webhooks.go:104-113 | token, method, path, headers, body, key and receive time of a row are the same in any two states of a run |
| RelayTheorems.ReplayPhaseSkipsDelivered | internal/relay/delivery.go:46-61 | under any interleaving the replay phase sends no id its drain phase recorded as delivered |
| RelayTheorems.ReplayPhaseWants | internal/relay/delivery.go:55-60 | what the replay phase sets out to send is the newest limit webhooks of the token that its drain phase did not record, or nothing, exactly as the limit and their number add up in 64 bits or not |
| RelayProofs.InvKept | internal/relay/handlers.go:20-153 | every step of every process, of the environment and of a restart keeps the protocol invariant |
| RelayProofs.ProcStable | internal/relay/handlers.go:20-153 | what a process relies on survives every effect any other process may have |
| RelayProofs.ProcGoesOn | internal/relay/delivery.go:14-121 | each process has only the effects the others tolerate, and what it relies on next holds after its step |
| DedupTheorems.DedupCountsDeliveries | internal/relay/handlers.go:55-65 | with dedup and nothing removed, rows and received deliveries are one to one in every run receiving only a given set of deliveries, exactly when no two of that set for one token share a key |
| DedupTheorems.NulFreeIsSeparate | internal/relay/util.go:46-59 | when no method and no path has a NUL, deliveries of a token share no key exactly when the hash does not collide on their texts |
| DedupTheorems.SharedKeyLosesDelivery | internal/relay/handlers.go:58-62 | for any two different deliveries of one token with one key, by NUL or by a hash collision, there is a run in which the second is answered 202 and stored nowhere |
| DedupTheorems.NulLosesDelivery | internal/relay/util.go:51-59 | such deliveries exist whatever the hash: path /a with body b and a NUL, and path /a, NUL, b with no body |
| DedupTheorems.ForwardedLiveOnce | internal/relay/handlers.go:74-93 | no webhook is forwarded live twice; under dedup with nothing removed no delivery either |
| HubTheorems.NoClientForgotten | internal/relay/hub.go:24-41 | every client ever registered is its token's current one, or closed, or a running handler is about to close it |
| HubTheorems.EntriesHaveHandlers | internal/relay/hub.go:36-40 | every entry is a client of that token whose own handler has not unregistered it yet |
| HubTheorems.DoneMeansGone | internal/relay/handlers.go:138-152 | when a tunnel handler is done its client is closed and under no token in the hub |
| HubTheorems.TunnelCanEnd | internal/relay/handlers.go:138-152 | whenever the connection drops, the handler waiting for it can end by its own two steps, and its client is then closed and out of the hub |
| HubTheorems.SuccessorsAreSafe | internal/relay/hub.go:24-68 | a step of anyone ends a client's time as current exactly when it registers another for the token, disconnects the token, is its own handler after closing, or is a restart; an older client's unregister never does |
| HubTheorems.DeletionDisconnects | internal/relay/handlers.go:195-208 | over any interleaving, when a deletion that removed its token's row is over, the client that was current then is out of the hub for that token, and closed or about to be |
| HubTheorems.DeletedTokenIsRefused | internal/relay/auth.go:13-43 | from a token's deletion on, over restarts too, no hook and no tunnel can begin for it until it is made again |
| Hub.Hub.Register | internal/relay/hub.go:24-34 | the token's entry is the new client, others unchanged, and the displaced one is closed with nothing pending |
| Hub.Hub.Unregister | internal/relay/hub.go:36-40 | only this client's own entry can go |
| Hub.Hub.Disconnect | internal/relay/hub.go:59-68 | the token's entry goes and its client is closed |
| Handlers.HandleHook | internal/relay/handlers.go:39-105 | the answer, the table and the requests sent, for any client answer and any failing statement: 500 and nothing stored or sent when the insert fails or is refused; a duplicate is answered as its first delivery and changes nothing; otherwise exactly one row is added with the arrival's fields, a connected client is sent exactly one request with that row's fields, and the answer and the row's status and body are the client's if it has a status and could be marked, else the row is pending and the answer 202, or 500 when only the mark failed; all of it is a valid run of the process |
| Handlers.RespondDuplicate | internal/relay/handlers.go:113-124 | 202 when the lookup fails or finds nothing, 202 for a pending row whether it fails or not, else that row's status and body; the answer is that of a valid run of its process and the table is untouched |
| Handlers.ReplayWebhook | internal/relay/delivery.go:86-121 | the exact result for any answer, failing read or failing mark; only the row's own client is sent something, one request with the row's fields that says it is a replay; only a marked answer changes the table, and only that row's status and body; all of it is a valid run of the process |
| Handlers.DrainRunsDeliverStored | internal/relay/delivery.go:63-84 | what the deliverStored loop sends, marks and reports is what a run of the drain process sends, marks and remembers |
| Handlers.WorkerRunsDrainOnConnect | internal/relay/delivery.go:46-61 | what both phases of drainOnConnect send and leave in the table is what a run of the worker sends and leaves, for any answers, failing reads and failing marks |
| Handlers.WorkerRunsDrainTick | internal/relay/delivery.go:23-30 | so is what a tick sends and leaves |
| Delivering.DeliverStored | internal/relay/delivery.go:63-84 | sends exactly the longest well-answered prefix and one more, in list order, each with its webhook's fields; marks and reports exactly that prefix, less failed marks; each marked row has the status and body its own request got and every other row is as before |
| Delivering.GoodRunEnds | internal/relay/delivery.go:69-74 | every request before the stop is answered with a non-zero status and the one at the stop is not |
| Delivering.RecordedIsPrefix | internal/relay/delivery.go:64-83 | without store errors the result is exactly a prefix of the list, each with its response |
| Delivering.PendingDrops | internal/relay/delivery.go:75-81 | exactly the reported webhooks stop being pending, so the token's pending count drops by exactly the length of the report, store errors or not |
| Delivering.DrainOnConnect | internal/relay/delivery.go:46-61 | sends a prefix of the pending webhooks, then, for a positive limit, a prefix of the selection that leaves out what it recorded; after the second phase each webhook replayed before the first bad answer has that answer's status and body unless its mark failed, every other row is as the first phase left it, and other tokens' rows are untouched |
| Delivering.ReplaysAreWanted | internal/relay/delivery.go:55-60 | that second part is a prefix of the newest limit webhooks not recorded when the limit and their number add up in 64 bits, and nothing when they do not |
| Delivering.DrainPending | internal/relay/delivery.go:47-53 | the pending ids afterwards are those before less the ones recorded as delivered; each row delivered has its answer's status and body and every other row is as before |
| Delivering.PendingOlderThan | internal/relay/delivery.go:35-44 | compacting in place leaves exactly the old enough webhooks, in order |
| Delivering.OlderThanPicks | internal/relay/delivery.go:39 | a webhook is picked exactly when it is in the list and was received before the cutoff |
| Delivering.DrainTick | internal/relay/delivery.go:23-30 | a tick sends a prefix of the pending webhooks older than sixty seconds and nothing else; the rows show the answers |
| TimedDrain.AgeFloorExcludes | internal/relay/server.go:14-21 | in every timed run of the whole relay, restarts included, no webhook in a periodic batch has a live Send waited for, from the age filter to the end of the batch, exactly when the age floor is at least the starting slack plus the forward timeout |
| TimedDrain.TicksDoNotRace | internal/relay/delivery.go:23-44 | so with the relay's 60 and 30 seconds, if a hook starts its forward within 30 seconds of its receive time |
| RateLimiter.WebhookRateLimiter.constructor | internal/relay/ratelimit.go:27-39 | a limit or window that is not positive becomes 1 and one minute |
| RateLimiter.WebhookRateLimiter.Allow | internal/relay/ratelimit.go:41-67 | verdict and entries are those of the specification functions |
| RateLimiter.WebhookRateLimiter.PruneLocked | internal/relay/ratelimit.go:69-76 | deleting in any key order leaves exactly the entries seen since the cutoff |
| RateLimiter.RetryAfterRoundsUp | internal/relay/auth.go:54-57 | the header is the wait in whole seconds rounded up (section 10.2.3 of RFC 9110) exactly when the rounding does not overflow |
| RateLimiterProofs.PruningLimit | internal/relay/ratelimit.go:69-76 | on every sequence of calls whose clock slips back by at most a given slack the pruned limiter answers as one that never prunes, exactly when two windows fit a duration and the slack is at most half a window rounded up |
| RateLimiterProofs.AdmissionLimit | internal/relay/ratelimit.go:51-66 | for all n: in every run in time order at most n calls for a key are allowed in every interval of one window, exactly when two windows fit a duration and n is at least 2*limit-1, or limit for a window of one nanosecond |
| RateLimiterProofs.RetryHintExact | internal/relay/ratelimit.go:57-61 | for every limit and window, in every run in time order a denial names d with 0 < d <= window; until d has passed every call for the key is denied, and the first one after is allowed |
| Store.Table.SaveWebhook | internal/store/webhooks.go:23-61 | refused for an empty id or token or a taken id, duplicate for a taken (token, key), else exactly this row is added; uniqueness is kept |
| Store.Table.MarkDelivered | internal/store/webhooks.go:104-113 | only status and body of that row change, and nothing when it is gone |
| Store.Table.WebhookByDedupKey | internal/store/webhooks.go:80-102 | finds the one row holding the key, or none exactly when the key is free |
| Store.Table.GetWebhook | internal/store/webhooks.go:223-242 | the row with that id, or none |
| Store.PendingOldestFirst | internal/store/webhooks.go:149-157 | the pending query gives exactly the token's rows with status 0, received in that order |
| Store.NewestComeFirst | internal/store/webhooks.go:208-221 | the newest query gives exactly the token's rows, the latest received first |
| Store.TextBeforeIsEarlier | internal/store/webhooks.go:149-157 | ordering by the stored text is ordering by instant |
| Retention.AgeSweepIsChronological | internal/store/webhooks.go:115-124 | comparing stored texts deletes exactly the rows received before the cutoff |
| Retention.CountSweepKeepsNewest | internal/store/webhooks.go:126-147 | each token keeps min(max, n) rows, each newer, by instant and then id, than each deleted one |
| Retention.CountSweepConserves | internal/store/webhooks.go:126-147 | the number of rows deleted is the sum over tokens of what each has beyond max |
| Retention.DeleteWebhooksOverCountPerToken | internal/store/webhooks.go:128-147 | the table is the count-swept one and the returned count is that sum; a maximum that is not positive does nothing |
| Retention.DeleteWebhooksOlderThan | internal/store/webhooks.go:118-124 | deleting by stored text removes, and counts, exactly the rows whose instant of receipt is before the cutoff |
| Retention.SweepRetention | cmd/holloway-server/main.go:135-150 | age then count, each skipped when off or failing; the rows left are exactly the survivors |
| Retention.SweepSurvivors | cmd/holloway-server/main.go:135-150 | after both deletes, either or both of which may be off, a row is left, unchanged, exactly when it is not older than the cutoff, if there is one, and, if rows are limited, fewer than the maximum such rows of its token are newer |
| ReplaySelection.CompactExcluding | internal/store/webhooks.go:250-260 | the loop that overwrites the slice it reads, with its early break, leaves the kept rows in order, cut at a positive limit |
| ReplaySelection.FewAreExcluded | internal/store/webhooks.go:244-261 | distinct rows lose at most one row per excluded id |
| ReplaySelection.SelectionLimit | internal/store/webhooks.go:244-261 | over-fetching, filtering and cutting equals filtering all rows and taking the first limit ones, for every list, exactly when the limit is positive and its 64-bit sum with the number of excluded ids does not wrap, or nothing is fetched |
| ReplaySelection.WantedAreNewest | internal/store/webhooks.go:244-261 | what is wanted are min(limit, n) of the token's n rows that are not excluded, newest first, none of the others received later |
| ReplaySelection.GreatestLimitSelectsNothing | internal/relay/handlers.go:143 | at the limit 2^63-1 with one excluded id nothing is selected though a row is wanted |
| ReplaySelection.LastWebhooksForTokenExcluding | internal/store/webhooks.go:244-261 | the result is what the 64-bit code selects: for a positive limit the newest limit rows of the token that are not excluded, and nothing when the sum wraps |
| Filter.WebhookWhere | internal/store/webhooks.go:263-306 | placeholders and arguments match in number and order; evaluating the clauses on every row equals the direct predicate, dates compared as instants, exactly when no bound is past year 9999, or one that is loses nothing as text: an upper bound whose year begins with 9999, or a lower one that excludes everything all the same |
| Filter.DashboardLimit | internal/dashboard/handler.go:284-289 | for any first and last day asked for, the clauses find exactly the matching rows received on those days, exactly when the last day is neither 9999-12-31 nor 0000-12-31 and the first is not 0001-01-01 |
| Filter.LastDayHidesAll | internal/dashboard/handler.go:287-289 | asking for last day 9999-12-31 hides every row of the year 1001 and later, all received by that day |
| Timestamps.BoundAsText | internal/store/db.go:188-190 | comparing a stored time with any bound as text is comparing instants with the bound or, past year 9999, with the first of January after the year its first four digits name |
| Filter.LikeIsContainment | internal/store/webhooks.go:267-276 | a filter text finds exactly the texts that contain it, for all texts, exactly when it has no % and no _ |
| Filter.FilterTextMeans | internal/store/webhooks.go:267-276 | a filter text without % and _ matches a column exactly when the column's text contains it, letters in either case alike |
| Filter.LowerMeans | internal/store/webhooks.go:268 | lower-casing moves the 26 capital letters by 32 and leaves everything else |
| Filter.TrimSpaceTrims | internal/store/webhooks.go:267-276 | a filter text loses exactly its leading and trailing white space |
| Timestamps.DayNumberCounts | internal/store/db.go:188-190 | the closed-form day number grows by one at every step of the Gregorian calendar |
| Timestamps.EarlierIsInstantOrder | internal/store/db.go:188-190 | field order is the order of instants |
| Timestamps.InstantSurjective | internal/store/db.go:188-190 | every instant is that of a calendar time |
| Timestamps.TextOrderIsChronological | internal/store/db.go:178-190 | byte order of formatted times is instant order for all times up to year 9999, nanoseconds included (section 5.1 of RFC 3339) |
| Timestamps.TextOrderRange | internal/store/db.go:178-190 | text order is chronological on all times up to a year exactly when that year is at most 9999 |
| Timestamps.ParseInvertsFormat | internal/store/db.go:180-190 | parsing a formatted time gives it back |
| Timestamps.FormatInvertsParse | internal/store/db.go:180-186 | an accepted text prints back with the parser's three leniencies put right, and so prints back unchanged exactly when it has the layout's length, a point and no sign |
| Timestamps.LenientTexts | internal/store/db.go:180-186 | those leniencies are real: a printed time with a comma, with its hour's leading zero left out or with a plus for the fraction's first zero parses to the same time |
| Dedup.PreimageInjective | internal/relay/util.go:51-59 | for methods and paths without NUL the hashed text determines method, path and body |
| Dedup.DeliveriesCollide | internal/relay/util.go:51-59 | two deliveries are hashed as one text exactly when they are equal or one path continues the other after a NUL and the rest of it, a NUL and the one body are the other body |
| Dedup.ParseRecovers | internal/relay/util.go:11-24 | the parser recovers the token and the forwarded path from prefix, token and the rest |
| Dedup.ParseOnlyThose | internal/relay/util.go:11-24 | a path that parses is the prefix, the token and the forwarded path, or the prefix and the token alone |
| Decimal.FormatUintInjective | internal/relay/ws_client.go:43 | decimal printing is injective |
| Broker.Broker.Publish | internal/dashboard/broker.go:18-27 | every subscriber is offered the event exactly once, in any order, and no channel is closed |
| Broker.Broker.Subscribe | internal/dashboard/broker.go:29-34 | a fresh open channel with an empty buffer joins the clients |
| Broker.Broker.Unsubscribe | internal/dashboard/broker.go:36-41 | exactly this channel leaves and is closed |
| Broker.FanOutIsFaithful | internal/dashboard/broker.go:18-42 | every interleaving keeps: at most a buffer full is buffered, losses are counted exactly, and no publish meets a closed channel |
| Broker.SubscribersHear | internal/dashboard/broker.go:18-42 | in every run what a subscriber took and still has buffered, at most 16 events, is a subsequence of what the run published between its subscription and its unsubscription, and the rest is what it missed |
| Broker.NoLossWithoutFullBuffer | internal/dashboard/broker.go:22-25 | a subscriber has every event, in order, exactly when its buffer was never full at a publish |

## Left out

- HTTP, WebSocket, JSON and SQLite: the transport delivers in order or fails and closes; each SQL statement is one atomic call on a map of rows, and a failing statement leaves no trace. Headers and bodies are exact texts; UTF-8 repair and JSON limits are not modelled.
- Liveness: no theorem says that a webhook is delivered, only that it stays stored; delivery is at least once.
- Random ids: assumed fresh where a row or a client is made. SHA-256 is any function to 64 characters.
- Tunnel.State: time is not in the connection machine; a deadline can pass at any moment. A peer that forges responses is not modelled; one that repeats them or sends other messages is.
- Relay.State: the rate limiter and the token checks come before the modelled steps; a checked request acts on a token that existed when it was checked. The dashboard's events, the delivered_at column and its clock are not in the rows.
- Relay.HookStep: status codes that the HTTP server itself refuses to write are passed on as they are.
- Relay.DrainStep: the order the database gives rows received at the same instant is any order; so is the list a failed read leaves out.
- Handlers.HandleHook: the refinement is stated for an uninterrupted handler; interleavings are the transition system's.
- Handlers.ReplayWebhook: uninterrupted too.
- Delivering.DrainOnConnect: uninterrupted too; a peer answers its n-th request by a given function.
- Hub.Hub.Register: the close of the displaced client follows the lock section at once; between the two other steps can come, as they do in the transition system.
- RateLimiter.WebhookRateLimiter.Allow: the nil limiter, which allows everything, is left out; the clock's reading is a parameter and is after Go's zero time.
- Store.Table.SaveWebhook: a zero receive time and missing headers are filled in by the source before the insert; no caller modelled here leaves them out.
- ReplaySelection.LastWebhooksForTokenExcluding: the token's rows in the order the database puts them are an input.
- Filter.WebhookWhere: clauses are syntax trees, not SQL text; texts are ASCII without NUL, at which SQLite's LIKE stops. Years before 0 are not modelled.
- Filter.DashboardLimit: the server's local zone, in which the form's dates are read, is UTC.
- Timestamps.ParseInvertsFormat: the second layout, RFC3339Nano, and offsets other than Z are not modelled; the database only ever holds the first.
- TimedDrain.AgeFloorExcludes: that a hook starts its forward within the slack of its receive time is an assumption; nothing in the source enforces it. A Send that a restart cut off is not waited for and counts as over. There is one clock: in the source the receive times and the age filter read the wall clock, which can be set, and the forward timeout does not.
- EndToEnd.RowsRecordLocalAnswers: the client program is that of one connection; a request that a restarted server sends again may be answered twice by the local application.
- Dashboard pages, admin authentication, tunnel secrets, origin checks, header filtering, `safeForwardPath`, `buildTunnelURL`, client backoff, flags, environment and shutdown: easy members or parsers not visible here.
