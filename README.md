# Prompt quota: server-side gate and client-side tracker

This project models the two parts of the chat application that enforce and report
the per-identity prompt quota, and proves properties of them in Dafny.

- **The quota gate** (`check_and_increment_limit` in the backend's limit service)
  decides whether one chat request may go ahead. A logged-in user is capped at 8
  prompts. On first sight the user inherits the prompt count its device built up as
  a guest. A guest must first pass the IP checks: a blocked IP is refused, and an IP
  with 10 or more requests in its window is refused. Otherwise the IP counter is
  bumped. Then the guest's device fingerprint is capped at 5 prompts. The gate reads
  and writes three tables: `user_stats`, `guest_tracking` and `ip_abuse_monitor`.
- **The quota tracker** (the `usePromptCount` hook of the web client) shows
  `{promptCount, maxPrompts, loading, error}` for the current identity. It reads the
  identity's row once and then follows changes to that row on one change-feed
  channel.

Files:

- `wrappers.dfy`: `Option` and `Result`.
- `quota.dfy` (module `Quota`): the ceilings both sides hard-code (`GuestLimit` = 5,
  `UserLimit` = 8), the IP soft cap (`IpGuestLimit` = 10), and the truthiness test
  both languages apply to an optional identity string.
- `limit_service.dfy` (module `LimitService`): the tables as values, the gate as the
  function `Check`, and the class `LimitStore`. `Check` gives the result, the
  tables afterwards and the database writes issued, in order. `LimitStore` holds the
  three tables as mutable maps. Its method `CheckAndIncrementLimit` runs the gate
  step by step and is proved to agree with `Check`. A ghost journal in `LimitStore`
  records the writes.
- `limit_traces.dfy` (module `LimitTraces`): sequences of requests. These lemmas
  bound what any sequence of calls can obtain for one fingerprint, one user id and
  one IP address. They also prove that the caps are invariants of the stored counts.
- `prompt_count.dfy` (module `PromptCount`): the hook's identity-to-table plan, count
  normalisation, channel naming and feed handling as functions. The class
  `PromptCountTracker` has one method per event: the fetch up to its await
  (`FetchPromptCount`), the read's completion (`FetchDone`), a feed notification
  (`FeedEvent`), the effect (`Activate`, whose subscription half is `Subscribe`) and
  its cleanup (`Cleanup`). A ghost multiset holds the channels the database client
  has open. The class invariant shows that at most one channel is open at any time,
  and that this channel watches the current identity's row.
- `quota_agreement.dfy` (module `QuotaAgreement`): the tracker reads the rows the
  gate writes, under the same keys, and shows the same ceilings the gate enforces.

The code and the system's design description disagree in two places. The model
follows the code in both:

- The design says a failed read keeps the last count. The hook resets `promptCount`
  to 0 (usePromptCount.jsx:69). `FetchDone` states the reset.
- The design asks that each fetch be tagged with an identity generation, so that a
  late result for an old identity is discarded. The hook has no such tagging.
  `FetchDone` therefore applies any result whenever it arrives, and the model
  claims no stale-result protection.

## Model

| member | source | states |
|---|---|---|
| `Quota.Truthy` | backend/app/services/limit_service.py:14 | An absent identity and the empty string are both falsy; every other string is truthy. This is the test of `if user_id:` and of the hook's `!fingerprint`, `userId` and `session && userId` guards. |
| `LimitService.CheckUser` | backend/app/services/limit_service.py:14-44 | A logged-in call succeeds exactly when the user's count is below 8. The count is the stored one, or on first sight the device's guest count (0 without a row). On success it returns count+1, in 1..8, and stores it. On failure the error is USER_LIMIT_REACHED and the stored value stays as it was. A row created on first sight persists even when the cap then fails. Other users, `guest_tracking` and `ip_abuse_monitor` are unchanged. The writes are the insert (first sight only), then the increment. |
| `LimitService.CheckGuest` | backend/app/services/limit_service.py:47-108 | A blocked IP fails with IP_BLOCKED. An IP at 10 or more fails with IP_LIMIT_REACHED. Neither writes anything. Past the IP checks, the IP counter becomes count+1 (or a new row with 1) as the first write, whatever the fingerprint check decides. The fingerprint check succeeds exactly when the guest count (0 without a row) is below 5. On failure it returns GUEST_LIMIT_REACHED and leaves `guest_tracking` unchanged. On success it upserts count+1 with `last_ip` = ip and returns it, in 1..5. `user_stats` is never touched. |
| `LimitService.Check` | backend/app/services/limit_service.py:8-108 | A truthy user id selects the logged-in path. Every success is in 1..8 for users and 1..5 for guests. The logged-in path leaves `ip_abuse_monitor` and `guest_tracking` unchanged. The guest path leaves `user_stats` unchanged. |
| `LimitService.CheckReplaysWrites` | backend/app/services/limit_service.py:25-106 | The tables after a call are exactly the tables before, with the call's journalled inserts, updates and upserts replayed in order. |
| `LimitService.LimitStore.CheckAndIncrementLimit` | backend/app/services/limit_service.py:8-108 | The in-place procedure returns `Check`'s result and leaves the three tables equal to `Check`'s tables afterwards. It appends exactly `Check`'s writes, in order, to the journal. |
| `LimitService.LimitStore.ServeUser` | backend/app/services/limit_service.py:14-44 | The logged-in path, in place, returns `CheckUser`'s result and leaves the tables and the journal as `CheckUser` says. |
| `LimitService.LimitStore.ServeGuest` | backend/app/services/limit_service.py:47-108 | The guest path, in place, returns `CheckGuest`'s result and leaves the tables and the journal as `CheckGuest` says. |
| `LimitTraces.CheckKeepsLimits` | backend/app/services/limit_service.py:33-108 | If every user count is at most 8, every guest count at most 5 and every IP count at most 10, then one call keeps all three bounds. |
| `LimitTraces.FinalKeepsLimits` | backend/app/services/limit_service.py:33-108 | Any sequence of calls keeps every stored count within its cap. |
| `LimitTraces.GuestCountStep` | backend/app/services/limit_service.py:91-108 | A call raises a fingerprint's guest count by one exactly when it grants that fingerprint a guest prompt. Otherwise the count is unchanged. This includes the whole logged-in path. |
| `LimitTraces.GuestGrantsBounded` | backend/app/services/limit_service.py:91-108 | Over any sequence of calls, a fingerprint is granted at most 5 minus its recorded guest count in guest prompts. |
| `LimitTraces.FreshFingerprintGetsAtMostGuestLimit` | backend/app/services/limit_service.py:5 | A fingerprint without a `guest_tracking` row gets at most 5 guest prompts, however many requests it sends. |
| `LimitTraces.UserUsedStep` | backend/app/services/limit_service.py:18-44 | A call never lowers a user's stored count. A prompt granted to that user raises the count, and it stays at most 8. |
| `LimitTraces.UserGrantsBounded` | backend/app/services/limit_service.py:18-44 | Over any sequence of calls, a user id is granted at most 8 minus its stored count (0 without a row). |
| `LimitTraces.FirstSightInherits` | backend/app/services/limit_service.py:18-44 | A user id without a row whose first request arrives from a device is granted at most 8 minus that device's guest count, over any sequence of calls: the guest usage inherited on first sight is subtracted. |
| `LimitTraces.IpUsedStep` | backend/app/services/limit_service.py:56-87 | A call raises an IP's counter by one, to at most 10, exactly when it admits a guest request from that IP. Otherwise the counter is unchanged. |
| `LimitTraces.IpAdmissionsBounded` | backend/app/services/limit_service.py:56-87 | Over any sequence of calls, an IP lets at most 10 minus its recorded count of guest requests past its checks. |
| `LimitTraces.GuestGrantsFromIpBounded` | backend/app/services/limit_service.py:63-108 | Guest prompts granted to one IP, over all fingerprints, are at most the requests it admitted, so at most 10 per window. |
| `PromptCount.Plan` | frontend/src/hooks/usePromptCount.jsx:27-49 | There is a row to track exactly when there is a session with a user id, or a fingerprint. That row is in `user_stats`, keyed by the user id, exactly when there is a session with a user id. Otherwise it is in `guest_tracking`, keyed by the fingerprint, so the logged-in identity wins. A planned row always means the fetch guard passes. |
| `PromptCount.Ceiling` | frontend/src/hooks/usePromptCount.jsx:29-49 | The ceiling shown is the gate's user cap (8) for `user_stats` and its guest cap (5) for `guest_tracking`. |
| `PromptCount.NormalizeCount` | frontend/src/hooks/usePromptCount.jsx:42-62 | A missing row gives 0, not an error. Otherwise the result is the stored `prompt_count`, or 0 when that is null. |
| `PromptCount.ChannelFor` | frontend/src/hooks/usePromptCount.jsx:82-115 | The channel for a read watches the table read. Its name is the table's name and `_` followed by the key, and its filter is the key column's `=eq.` followed by the key. |
| `PromptCount.ChannelScopedToKey` | frontend/src/hooks/usePromptCount.jsx:85-115 | The channel for a read watches the same table. Both its name (`<table>_<key>`) and its filter (`<key column>=eq.<key>`) decode back to the identity that was read. |
| `PromptCount.ChannelNamesDistinct` | frontend/src/hooks/usePromptCount.jsx:86-107 | Different identities, whether of the same kind or not, get channels with different names. |
| `PromptCount.FeedValue` | frontend/src/hooks/usePromptCount.jsx:97-99 | A payload carries a count exactly when it has a `new` record whose `prompt_count` is defined. The count it carries is that field. |
| `PromptCount.FeedLastWriteWins` | frontend/src/hooks/usePromptCount.jsx:95-120 | After any run of feed events, the count is the one carried by the last event that carries one. If no event carries one, the count is unchanged. |
| `PromptCount.PromptCountTracker.constructor` | frontend/src/hooks/usePromptCount.jsx:10-13 | The hook starts with count 0, ceiling 5, loading, no error and no channel. |
| `PromptCount.PromptCountTracker.FetchPromptCount` | frontend/src/hooks/usePromptCount.jsx:15-73 | Without a fingerprint or user id, only `loading` is cleared: count, ceiling and error are kept and no read is issued. Otherwise the error is cleared and the planned row's read is issued, with that table's ceiling. With a user id but no session and no fingerprint, no read is issued and loading ends at once. The count, the identity and the channel are never touched, and the same holds for `refetchPromptCount`. |
| `PromptCount.PromptCountTracker.FetchDone` | frontend/src/hooks/usePromptCount.jsx:31-72 | When the read completes, the count becomes the normalised row (error untouched). On a query error, the error is the message and the count is reset to 0. Loading ends either way. Nothing else changes. |
| `PromptCount.PromptCountTracker.FeedEvent` | frontend/src/hooks/usePromptCount.jsx:95-120 | A feed event replaces the count with the one it carries, exactly when it carries one. Otherwise nothing changes, and no other field ever changes. |
| `PromptCount.PromptCountTracker.Activate` | frontend/src/hooks/usePromptCount.jsx:76-124 | The effect stores the identity, issues the planned read and opens the channel for that same row, or none when there is no row to track. At most one channel is opened, and afterwards it is the only open channel. The count is untouched, and loading stays on exactly while the read is pending. |
| `PromptCount.PromptCountTracker.Subscribe` | frontend/src/hooks/usePromptCount.jsx:80-124 | The channel opened is the one for the planned row, or none when there is no row to track. The client's open channels grow by that one channel only. |
| `PromptCount.PromptCountTracker.Cleanup` | frontend/src/hooks/usePromptCount.jsx:127-132 | The channel is removed exactly when one is held, and afterwards no channel is open. Without a channel the open channels are unchanged, so a second cleanup is a no-op. |
| `QuotaAgreement.ReadRow` | frontend/src/hooks/usePromptCount.jsx:31-55 | The `maybeSingle` point read, taken against the gate's tables, finds a row exactly when the gate stored one under the key, and that row's count is never null. |
| `QuotaAgreement.ClientReadsGateCount` | frontend/src/hooks/usePromptCount.jsx:31-62 | The count the tracker shows for a row is the count the gate works with for the same key. A missing row is 0 on both sides. |
| `QuotaAgreement.GrantSeenWithinCeiling` | backend/app/services/limit_service.py:34-108 | After the gate grants a prompt, the row the tracker plans for that identity holds the granted count, and that count is at most the ceiling the tracker shows. |
| `QuotaAgreement.CeilingsReached` | backend/app/services/limit_service.py:5-108 | In any tables, a caller one short of its cap is granted exactly the ceiling the tracker shows: 8 for a user whose starting count is 7, 5 for a guest whose IP admits it and whose count is 4. |

## Left out

- The database client is replaced by maps (the gate) and by event arguments (the tracker): table queries, `maybeSingle`, channel subscription and `removeChannel`. Keys are primary keys, so a read returns at most one row.
- Concurrency is not modelled. This covers read-then-write races between concurrent gate calls, and the async interleaving of an in-flight read with feed events. The tracker's methods admit every order of events, and `FetchDone` does not check which identity its read was for.
- Logging (`print`, `console.log`, `console.error`) and the `now()` timestamps (`updated_at`, `last_request_at`) are left out. The hourly reset of `request_count_1h` happens outside the code, so the trace bounds count from the recorded values.
- HTTP 403 exceptions become `Err` values of `LimitError`.
- The unused `USER_BONUS_LIMIT` constant is left out.
- The presentation components (LimitIndicator, ChatArea, Header, Sidebar, LoginModal, Button, GlassCard, App) are left out. They hold rendering and floating-point arc geometry, with no quota logic.
- Stored counts in the gate's tables are natural numbers. A null `request_count_1h` is not modelled: `None >= 10` at limit_service.py:69 raises a TypeError. A row without the key would read as 0 through `.get(…, 0)` at limit_service.py:66, which the model's `IpRow` cannot express.
- A newly inserted `ip_abuse_monitor` row is taken to have `is_blocked` false, the column default. The code does not set it.
- PromptCount.FeedEvent: a payload whose `prompt_count` is JSON `null` passes the `!== undefined` test and would store `null` as the count. The model takes `prompt_count` as either undefined or a number.
- PromptCount.NormalizeCount: non-numeric stored values and `NaN` are not modelled.
- PromptCount.PromptCountTracker.Activate: it requires that no channel is held. This is the runtime's guarantee that the previous effect's cleanup ran first. A failure to subscribe is not modelled, because the hook does not look at the subscription status.
- The session object is modelled only by its truthiness.
