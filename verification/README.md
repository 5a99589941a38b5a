# Verified model of the streaming backend

This project models the parts of the FastAPI backend that are real state machines or bounded-resource
algorithms, and proves what they keep over every run.

* **Billing** (`BillingTables`, `BillingInvariant`, `BillingFulfilment`, `BillingSteps`, `BillingTerms`,
  `BillingRuns`, `BillingAnswers`, `BillingAccess`, `BillingCheckout`, `BillingPrices`, `BillingService`).
  Payment intents are created or reused, their QR is refreshed, and they are settled by poll, sweep, playback authorize or an operator; receipts, the one-row
  subscription summary, guest claims, deletions and the access decision follow from them. The tables are finite
  maps with their unique keys, one request is one committed transaction, and the answers of the payment network
  are inputs. Only create-or-reuse is split into lookup, insert and retry, so that creators interleave. The class
  `BillingDb` holds the tables as fields and changes them step by step as the code does; each method is tied to
  the specification function of its step, and the lemmas are about those functions and about runs of them.
  A subscriber's granted periods are kept as history that no step reads.
* **Sessions and sign-in codes** (`Sessions`, `SignIn`). The device limit, token rotation with its retry window,
  revocation, and the Telegram and TV pairing protocols on top of them.
* **Bounded resources** (`CheckBudget`, `CircuitBreaker`, `AlertRelay`). Numeric bounds over unbounded histories.
* **Trees, text and caches** (`Comments`, `CommentThreads`, `CommentForest`, `StableSort`, `Text`, `Playlist`,
  `ResponseCache`).

`Options` holds the option and result types. Time is in whole seconds, or real seconds where the code uses a
monotonic float clock; money is in cents. `dafny verify dfyconfig.toml` checks everything.

## Findings

* A sweep that meets a paid subscription while no plan is active logs the error and goes on with the intent
  already marked succeeded in the session. If another row of the same batch settles, the commit keeps a succeeded
  subscription without payment row or granted period, and nothing repairs it later. `SweepKeepsInvIff` says exactly
  when, `CompleteUntilStranded` that this is the only way a receipt goes missing in a run and that it is permanent,
  and `StrandingHappens` gives a run from the empty database.
* `settle_pending_intent_on_poll` looks for a pending sibling intent of the same buyer and title. The unique
  pending indexes leave none to find (`NoSibling`).
* A paid answer clears the circuit breaker even when its probe was sent before the block. A block therefore keeps
  all workers silent for its cooldown exactly when it finds no probe in the air (`SilentIffNothingFlying`);
  `LatePaidReopens` is a run from the start in which it does not.
* The relay's dedup table forgets entries that are a day old once it holds 500 of them, so a dedup interval is kept
  exactly up to one day, or a minute more at one alert a minute (`SpacingIff`). Its docstring says that resolved
  alerts always go out; the per-minute limit can drop them (`ResolvedDropped`), exactly when it was used up in the
  minute before (`ResolvedGoesOutIff`), and the model follows the code.
* A guest's purchases cannot be claimed while guest and account both have a pending checkout of the same title: the
  unique index refuses the whole claim (`ClaimRefusedIff`).
* Without network checks, and only then, a second QR expiry forgets the first QR unverified (`ForgetsQrIffNoNbc`).
* A cached catalogue body can be served for just under a minute, not 30 seconds (`StaleForLessThanTwoTtls`).
* Deleting a cache key does not make the next public read rebuild it, as the docstring says, unless the same worker
  reads it: other workers serve their own copies for up to 30 seconds more (`DeletedIsGone`, `DeleteLagIff`).
* The bandwidth pattern also matches the end of AVERAGE-BANDWIDTH, so an average written first decides the order
  (`AverageWins`); `KeyIsAttributeIff` says for which lines the BANDWIDTH attribute does.
* A reply to a live comment is refused as "not found" when any of its ancestors was deleted (`MeasuredIsTrue`).

## Model

| member | source | states |
|---|---|---|
| BillingService.BillingDb.FulfillPaymentIntent | app/billing/fulfillment.py:89-248 | marks the intent succeeded and writes its one receipt, is a no-op on a missing or succeeded intent, and on a raised error leaves exactly the half-done state in the session |
| BillingService.BillingDb.ExtendSubscription | app/billing/fulfillment.py:180-248 | the new period starts at the live end or now, the row and the payment agree on its end |
| BillingInvariant.ResolvedPlanExists | app/billing/fulfillment.py:39-60 | a plan is found iff any plan is active, and the one found is an active plan of the catalogue |
| BillingInvariant.ExtendKeepsRow | app/billing/fulfillment.py:198-222 | appending a period keeps the periods disjoint and the row their summary |
| BillingInvariant.ExtendLedger | app/billing/fulfillment.py:192-248 | a fulfilled subscription keeps the ledger of every user |
| BillingInvariant.FulfilKeepsInv | app/billing/fulfillment.py:89-248 | fulfilling any intent, in any state and however often, keeps the invariant |
| BillingFulfilment.OrderIdRoundTrip | app/billing/fulfillment.py:27-36 | the plan code written into an order id is read back, dashes included |
| BillingFulfilment.OrderIdCode | app/billing/fulfillment.py:27-36 | an order id names a code exactly when it is `sub-`, that code, a dash and a tail without dashes |
| BillingFulfilment.ResolvesPaidPlan | app/billing/fulfillment.py:39-60 | the plan found is the one an intent pays for: the first plan of its code if on sale, else the longest (first among equals) of those at its amount, else the first on sale |
| BillingFulfilment.SomePlanPaid | app/billing/fulfillment.py:39-60 | and as long as a plan is on sale there is one |
| BillingFulfilment.FulfilPays | app/billing/fulfillment.py:89-248 | an unpaid intent is fulfilled exactly when it is for a title, or for an account while a plan is on sale; every row it leaves is then stated: status, receipt, the paid plan's code, the period from the live end or from now for the days bought, and nothing else |
| BillingFulfilment.RowGetsPaidPlan | app/billing/fulfillment.py:216-222 | whatever row the user had before, it then names the plan paid for |
| BillingInvariant.SupersedeKeepsInv | app/billing/ownership.py:22-61 | closing an intent whose title is owned keeps the invariant, and the owner's receipt is from another intent |
| BillingService.BillingDb.MarkSupersededIfOwned | app/billing/ownership.py:22-61 | supersedes exactly when the buyer already holds a receipt for the title |
| BillingService.BillingDb.SettleBakongIntentIfPaid | app/billing/bakong_settle.py:92-106 | fulfils a pending intent exactly when the network reports its current or previous QR paid |
| BillingService.BillingDb.RegenerateQr | app/billing/intent_helpers.py:70-82 | the old md5 becomes the previous one, everything else stands |
| BillingService.BillingDb.ReuseOrRefreshPending | app/billing/intents.py:56-83 | the order of the decisions for a found pending intent: fresh, settled, owned, replaced, kept |
| BillingService.BillingDb.SettlePendingIntentOnPoll | app/billing/intents.py:329-387 | the poll's settle path with its ownership check, breaker check and sibling lookup |
| BillingService.BillingDb.PollSibling | app/billing/intents.py:377-385 | a paid sibling is fulfilled and the polled intent superseded at the same time |
| BillingService.BillingDb.SettlePendingMovieForBuyer | app/billing/bakong_settle.py:109-149 | with checks on, an identity and the breaker not blocking, settles the first paid one of the buyer's two newest pending intents for the movie |
| BillingService.BillingDb.SettleFirstPaid | app/billing/bakong_settle.py:144-149 | the loop stops at the first one that settles |
| BillingService.BillingDb.SweepPendingBakongIntents | app/billing/bakong_sweeper.py:82-117 | the loop over the locked batch, with swallowed errors and the commit or rollback after it |
| BillingService.BillingDb.ClaimGuestPurchases | app/services/guest.py:13-31 | all of the guest's receipts and intents move to the account, or nothing does when the index refuses |
| BillingService.BillingDb.CommitNewIntent | app/billing/intents.py:94-110 | inserts, or rolls back and reports the unique conflict |
| BillingSteps.SettleKeepsInv | app/billing/bakong_settle.py:92-106 | a settled intent keeps the invariant |
| BillingSteps.ReuseKeepsInv | app/billing/intents.py:56-83 | reusing or refreshing a pending intent keeps the invariant |
| BillingSteps.NoSibling | app/billing/intents.py:357-377 | with the unique pending index the sibling lookup finds nothing |
| BillingSteps.OneRowToSettle | app/billing/bakong_settle.py:131-145 | and playback authorize finds at most one intent |
| BillingSteps.PollKeepsInv | app/billing/intents.py:329-387 | a poll keeps the invariant |
| BillingSteps.AuthorizeKeepsInv | app/billing/bakong_settle.py:109-149 | playback authorize keeps the invariant |
| BillingSteps.ClaimKeepsInv | app/services/guest.py:13-31 | a guest claim keeps the invariant |
| BillingSteps.ClaimMovesAll | app/services/guest.py:13-31 | every receipt and intent of the guest, and nobody else's, goes to the account |
| BillingSteps.ClaimRefusedIff | alembic/versions/0048_atomic_sessions_and_checkout.py:148-202 | a claim is refused as a whole exactly when guest and account both have a pending checkout of the same product |
| BillingSteps.DeletionKeepsInv | app/services/content_delete.py:34-74 | deleting a title or a series keeps the invariant |
| BillingSteps.ContentGone | app/services/content_delete.py:34-48 | deleting a title takes it and its receipts and detaches its intents, and changes nothing else |
| BillingSteps.SeriesGone | app/services/content_delete.py:51-74 | deleting a series does the same to it and to each of its episodes |
| BillingSteps.InsertKeepsInv | alembic/versions/0048_atomic_sessions_and_checkout.py:148-202 | an insert that the indexes accept keeps the invariant |
| BillingSteps.MarkedKeepsCore | app/billing/fulfillment.py:104-106 | an intent marked succeeded without its side effect breaks nothing but its own receipt |
| BillingSteps.SweepKeepsCore | app/billing/bakong_sweeper.py:82-117 | every sweep keeps the core of the invariant, raised errors included |
| BillingSteps.PlanlessSweep | app/billing/bakong_sweeper.py:108-117 | with no active plan a sweep commits exactly when it saw a title paid, and writes no subscription payment |
| BillingSteps.SweepKeepsInvIff | app/billing/bakong_sweeper.py:82-117 | a sweep leaves every succeeded intent with its receipt exactly when it strands no paid subscription |
| BillingSteps.StepKeepsInv | app/billing/intents.py:56-387 | every transaction keeps the core, and receipts stay complete except exactly at a stranding sweep |
| BillingTerms.StepCarries | app/billing/fulfillment.py:101-102 | no transaction changes an intent's product, price, plan or interval, or takes a succeeded one's status or receipt |
| BillingTerms.StepLeavesUnfunded | app/billing/fulfillment.py:101-102 | no transaction ever pays for a stranded subscription |
| BillingRuns.RunKeepsCore | app/billing/fulfillment.py:89-248 | receipts sound, superseded intents owned, pending intents unique and the ledger summarised, in every state of every run |
| BillingRuns.CompleteUntilStranded | app/billing/bakong_sweeper.py:108-117 | over any run, receipts are complete exactly until a sweep strands a subscription, and never again after |
| BillingRuns.FromEmptyHolds | app/billing/fulfillment.py:89-248 | both, with no assumption, for every run from the empty database |
| BillingRuns.StrandingHappens | app/billing/bakong_sweeper.py:108-117 | a run from the empty database that strands a paid subscription |
| BillingRuns.OneReceipt | app/billing/fulfillment.py:108-248 | at most one receipt per intent across the three tables, only for succeeded intents, exactly one while the target is there and no sweep has stranded it |
| BillingRuns.SupersededMeansOwned | app/billing/ownership.py:40-61 | in every run a superseded intent's title is owned by its buyer through another succeeded intent |
| BillingRuns.StepTouches | app/billing/bakong_settle.py:92-106 | what one step may do to one intent: its QR changes only in a refresh, its success needs a fulfilment or a paid answer |
| BillingRuns.SucceedsOnlyWhenPaid | app/billing/ownership.py:18-30 | over any run an intent succeeds only by an operator's fulfilment or a paid answer, never by ownership |
| BillingRuns.NoQrForgotten | app/billing/bakong_settle.py:64-89 | with network checks on, every md5 ever issued is current, previous, or was answered unpaid in the refresh that dropped it |
| BillingRuns.ForgetsQrIffNoNbc | app/billing/bakong_settle.py:64-71 | some run from the empty database forgets a QR unverified exactly when network checks are off |
| BillingRuns.SummaryRefinesLedger | app/services/content_access.py:37-48 | in every run the one row says "active" at a time exactly when that time lies in a granted period, and periods are disjoint |
| BillingRuns.GrantedIsPaidFor | app/billing/fulfillment.py:198-248 | the granted time is the sum of the intervals of the distinct fulfilled subscription intents, over any run |
| BillingAnswers.ReuseAnswers | app/billing/intents.py:56-83 | a stale intent reported paid is settled; else one whose title is owned is closed; else a stale QR is replaced, with checks on only when each QR is answered unpaid; else nothing changes |
| BillingAnswers.PollAnswers | app/billing/intents.py:329-387 | a polled pending intent is closed if its title is owned, else settled if reported paid while the breaker does not block, else left alone |
| BillingAnswers.AuthorizeAnswers | app/billing/bakong_settle.py:144-149 | playback authorize settles the first row reported paid and only that |
| BillingAnswers.RowAnswers | app/billing/bakong_sweeper.py:82-117 | a row of a sweep is paid when the sweep gets there and twice hears "paid", and marked succeeded only then |
| BillingAnswers.PaidIffFoundPaid | app/billing/bakong_settle.py:92-106 | an unpaid intent comes out of a transaction paid, with its receipt, exactly when it can be paid for and an operator marks it paid or the network is asked and reports it paid |
| BillingAnswers.PaidSinceFoundPaid | app/billing/bakong_settle.py:92-106 | over any run an intent is paid from the first such transaction on, for good, and not before |
| BillingAccess.AccessMeans | app/services/content_access.py:89-161 | the access decision is administration, or publication with a free or paid-for title |
| BillingAccess.MovieAccess | app/services/content_access.py:77-144 | a published movie is open to everyone if marked free, without a price above zero or free today, else to running subscriptions and receipts for it; unpublished ones to administrators only |
| BillingAccess.EpisodeAndPodcastAccess | app/services/content_access.py:145-161 | an unfree episode opens by subscription or a receipt for its series, an unfree podcast by subscription only |
| BillingAccess.FulfilGrantsAccess | app/billing/fulfillment.py:101-174 | paying for a published movie or series opens it to the buyer, also when the intent had been superseded |
| BillingAccess.SubscriptionGrantsAccess | app/billing/fulfillment.py:180-248 | a subscription payment opens every published title for the whole bought interval |
| BillingAccess.StepKeeps | app/billing/intents.py:56-387 | no settle, poll, sweep, authorize or fulfil step takes a receipt or shortens a subscription |
| BillingAccess.ClaimUnitesAccess | app/services/guest.py:13-31 | after a claim the account has the union of both identities' purchases and nobody else changes |
| BillingAccess.ClaimConservesReceipts | app/services/guest.py:19-31 | a claim changes no receipt but for its buyer |
| BillingAccess.StepKeepsEntitlement | app/services/content_access.py:113-154 | one step keeps a title paid for, in the hands of the buyer or of the account whose claim it accepts |
| BillingAccess.HolderIsFirstClaimer | app/services/guest.py:13-31 | a user keeps what he bought; a guest's purchases go to the account of the first accepted claim and stay there |
| BillingAccess.PaidAccessPersists | app/services/content_access.py:89-161 | over any run what was paid for stays paid for while the title exists, in the hands of that holder |
| BillingCheckout.DraftIsWellFormed | app/billing/intents.py:159-179 | each create path builds a pending intent that occupies the index entry of its product |
| BillingCheckout.LookupMatchesIndex | app/billing/intents.py:132-142 | the pending lookup and the unique index mean the same checkout |
| BillingCheckout.MoveKeepsInv | app/billing/intents.py:86-180 | every interleaving of lookups, inserts, retries and other transactions keeps the core |
| BillingCheckout.CommitLosesIff | app/billing/intents.py:94-103 | an insert is refused iff the id or index entry is taken or the title is gone; else the intent is stored and returned |
| BillingCheckout.LoserReturnsWinner | app/billing/intents.py:104-108 | a creator that lost the insert gets the intent that holds the index entry |
| BillingCheckout.OnePendingPerCheckout | alembic/versions/0048_atomic_sessions_and_checkout.py:148-202 | in no interleaving do two pending intents exist for one buyer and product |
| BillingCheckout.RetryFindsWinner | app/billing/intents.py:97-108 | in every run a retry returns the winner while it is pending, and fails only when there is none |
| BillingCheckout.FulfilledUnderChosenPlan | app/billing/fulfillment.py:44-50 | a checkout is fulfilled under the plan and interval it was started for while that plan is active |
| BillingPrices.DraftAsksPrice | app/billing/intents.py:144-179 | a checkout builds an intent exactly when the product has a price of three cents or more and a QR was made, and asks that price: the published movie's, 250 for a series, the active plan's |
| BillingPrices.LookAnswers | app/billing/intents.py:113-180 | a checkout is refused when there is nothing to buy, returns the pending intent of that buyer and product, else asks the price or is refused |
| BillingPrices.ReceiptIsAtPrice | app/billing/intents.py:86-305 | in every interleaving from the empty database a receipt is for what its product cost at the checkout that built its intent |
| BillingTables.LongestPlan | app/billing/fulfillment.py:56-58 | a plan of maximal duration among the given ones |
| Sessions.SessionService.CountActiveSessions | app/services/session.py:59-70 | counts the user's unrevoked, unexpired sessions |
| Sessions.SessionService.CreateSession | app/services/session.py:73-101 | a new session, refused for an unknown user or at the device limit |
| Sessions.SessionService.RefreshSession | app/services/session.py:146-212 | the token or error of every branch, with the row it leaves |
| Sessions.SessionService.RevokeSession | app/services/session.py:134-143 | revokes the user's own live row or reports it missing |
| Sessions.SessionService.RevokeAllUserSessions | app/services/session.py:215-225 | revokes every live row of the user and no other |
| Sessions.StepKeepsLimit | app/services/session.py:73-101 | no transaction takes a user above the device limit |
| Sessions.DeviceLimit | app/services/session.py:195-205 | in every run and at every clock value a user has at most the permitted number of live sessions |
| Sessions.RowsMoveForward | app/services/session.py:207-211 | versions only grow, users never change and revoked rows are frozen, over any run |
| Sessions.IssuedNotAhead | app/services/session.py:179-212 | no issued token is ever newer than its session |
| Sessions.OneBumpPerVersion | app/services/session.py:180-181 | each version is rotated away at most once |
| Sessions.BumpMovesOn | app/services/session.py:207-209 | after a rotation the session stays ahead of that version |
| Sessions.ReplacedTokenDies | app/services/session.py:182-189 | a replaced token is refused from two minutes after the rotation on, however often it was retried |
| Sessions.ReplayRevokes | app/services/session.py:190-193 | presenting a token replaced that long ago revokes the session |
| Sessions.RevokedForGood | app/services/session.py:167-174 | a revoked session never hands out a token again |
| Sessions.RefreshIssuesIff | app/services/session.py:146-212 | a refresh hands out a token exactly when it presents the current version, or the one before within two minutes, of an unrevoked session within grace of an active account, and the session is live or a device slot is free |
| Sessions.LoginIssuesIff | app/services/session.py:73-101 | a login hands out a token exactly when the account exists and has a free device slot |
| Sessions.StepRevokesIff | app/services/session.py:134-225 | a session is revoked exactly by its user's logout, from it or from all, or by the replay of a token no longer accepted, and extended exactly by a step that hands out a token for it |
| Sessions.IssuedIsLive | app/services/session.py:207-212 | whoever gets a token has a session that lasts a whole lifetime from then on |
| Sessions.IssuedStaysLive | app/services/session.py:207-212 | over any run it stays live for that lifetime, unless such a step revokes it |
| SignIn.SignInService.StartBotLogin | app/services/telegram_bot_login.py:49-62 | a fresh pending code |
| SignIn.SignInService.HandleMessage | app/services/telegram_bot_login.py:122-149 | Start binds a pending code to its sender, again only for the same sender |
| SignIn.SignInService.HandleCallback | app/services/telegram_bot_login.py:195-211 | only the sender of Start may confirm or cancel |
| SignIn.SignInService.PollBotLogin | app/services/telegram_bot_login.py:226-256 | a confirmed code is used up by the poll that hands out the token, and only if the login succeeds |
| SignIn.SignInService.StartPairing | app/services/device_pairing.py:27-33 | a fresh pending pairing code |
| SignIn.SignInService.ConfirmPairingCode | app/services/device_pairing.py:48-62 | a pending code gets the confirmer's token, unless the device limit refuses |
| SignIn.SignInService.PollPairingCode | app/services/device_pairing.py:65-76 | the first poll of a confirmed code takes the token away |
| SignIn.LoginTokenOnce | app/services/telegram_bot_login.py:240-256 | each Telegram code hands out at most one token in any run |
| SignIn.PairingTokenOnce | app/services/device_pairing.py:68-76 | each pairing code hands out at most one token in any run |
| SignIn.TakerStays | app/services/telegram_bot_login.py:129-146 | once a code has been taken, its Telegram id never changes |
| SignIn.OneTaker | app/services/telegram_bot_login.py:129-146 | at most one Start ever takes a code |
| SignIn.LoginTokenBelongsToTapper | app/services/telegram_bot_login.py:175-256 | a token is handed out before expiry, to the account of the one Telegram id whose Start took the pending code and who then confirmed it in time |
| SignIn.LoginTokenIff | app/services/telegram_bot_login.py:49-256 | told from the events alone: a poll hands out a token exactly when the code is unexpired, its first starter's first tap after that was Confirm, no token was handed out since and a session can be opened for him; if only the last is missing the login fails |
| SignIn.PairingTokenBelongsToConfirmer | app/services/device_pairing.py:48-76 | a poll hands out a token iff the code is approved and unexpired, and it is the confirmer's |
| SignIn.PairingTokenIff | app/services/device_pairing.py:27-76 | told from the events alone: a poll hands out the token of the first accepted confirm exactly when there was one, the code is unexpired and no poll came in time since |
| SignIn.ConfirmedStands | app/services/telegram_bot_login.py:233-256 | in any run a confirmed code stays as it is until a poll of it hands out the token |
| SignIn.FailedLoginRetries | app/services/telegram_bot_login.py:240-256 | after a poll whose login failed, whatever other codes and sessions do meanwhile, the next poll before expiry hands out a token exactly when a session can then be opened |
| SignIn.WaitingStands | app/services/device_pairing.py:48-62 | in any run a waiting pairing code stays as it is until a confirm is accepted |
| SignIn.RefusedConfirmRetries | app/services/device_pairing.py:54-62 | after a refused confirm, the next confirm before expiry approves the code with its own token exactly when a session can then be opened |
| SignIn.CodesOpenSessions | app/services/session.py:92-101 | a poll that hands out a token and a confirm that is accepted open one session for a whole lifetime, others none |
| SignIn.CodesKeepDeviceLimit | app/services/session.py:85-90 | the device limit holds with both code protocols in the mix |
| CheckBudget.Budget.ConsumeIntentNbcCheck | app/billing/bakong_check_cache.py:144-169 | grants or refuses a check, restarts a window that is over, prunes the oldest entries of a large map |
| CheckBudget.Budget.SoftPrune | app/billing/bakong_check_cache.py:164-168 | drops the 500 oldest entries once there are more than 2000 |
| CheckBudget.Budget.IntentNbcCheckCount | app/billing/bakong_check_cache.py:129-141 | the checks charged in the running window |
| CheckBudget.Budget.ResetIntentNbcChecks | app/billing/bakong_check_cache.py:172-178 | forgets one intent, or all |
| CheckBudget.RunKeepsOrder | app/billing/bakong_check_cache.py:164-168 | in every run the insertion list holds exactly the map's keys, and the map never exceeds 2000 entries after a call |
| CheckBudget.PruneDropsOldest | app/billing/bakong_check_cache.py:165-168 | a prune drops exactly the 500 entries inserted first |
| CheckBudget.CountIsCharges | app/billing/bakong_check_cache.py:129-141 | the count answered is the number of checks charged since the call, less than an hour ago, that opened the window |
| CheckBudget.RefusedIff | app/billing/bakong_check_cache.py:144-169 | in every run a check is refused exactly when the intent's window is less than an hour old and has granted all forty |
| CheckBudget.CallExplained | app/billing/bakong_check_cache.py:154-163 | one call moves an intent's window on by at most one, and only a whole window later |
| CheckBudget.BudgetBound | app/billing/bakong_check_cache.py:144-169 | any span of k windows holds at most (k + 1) x 40 checks charged to an intent whose entry is not forgotten |
| CircuitBreaker.Breaker.ChecksBlocked | app/billing/bakong_quota.py:98-109 | blocked by the shared or by the worker's own deadline |
| CircuitBreaker.Breaker.SetBlockedUntil | app/billing/bakong_quota.py:72-93 | the later of old and new deadline, here and in Redis |
| CircuitBreaker.Breaker.NoteTransient | app/billing/bakong_quota.py:67-69 | a pause between 5 and 120 seconds |
| CircuitBreaker.Breaker.ClearRateLimit | app/billing/bakong_quota.py:126-133 | both deadlines are gone |
| CircuitBreaker.SharedKeyOutlivesDeadline | app/billing/bakong_quota.py:92-93 | in every run the Redis key outlives the deadline it stores |
| CircuitBreaker.BlockNeverShortens | app/billing/bakong_quota.py:84-93 | a later note never shortens the deadline |
| CircuitBreaker.BlockStands | app/billing/bakong_quota.py:72-109 | the shared deadline stands until it has passed, unless a probe sent before the block comes back paid |
| CircuitBreaker.BlockedIff | app/billing/bakong_quota.py:72-133 | in every run a worker is blocked exactly while a pause of at least five seconds lasts that somebody called with no paid answer since, or that it called itself with no paid answer to it since |
| CircuitBreaker.SilentIffNothingFlying | app/billing/bakong.py:184-211 | after a block, every continuation keeps all workers silent for the whole cooldown exactly when the block finds no probe in the air |
| CircuitBreaker.Reopened | app/billing/bakong.py:201-211 | any probe in the air has a continuation in which a check goes out at the very instant of the block |
| CircuitBreaker.NoSendWhileBlocked | app/billing/bakong.py:184-211 | no worker sends a check within the cooldown of a block, unless a probe sent before it came back paid |
| CircuitBreaker.NoSendWithoutOverlap | app/billing/bakong.py:184-211 | with no probe in the air at the block, none is sent within the cooldown |
| CircuitBreaker.LatePaidReopens | app/billing/bakong.py:201-205 | a run in which a late paid answer reopens the breaker |
| AlertRelay.Relay.Admit | ops/alert_relay/main.py:82-99 | sent with the repeats held, held, or dropped |
| AlertRelay.Relay.TakeSlot | ops/alert_relay/main.py:105-111 | pops what left the window and takes a slot if one is free |
| AlertRelay.Relay.Prune | ops/alert_relay/main.py:113-117 | a table of 500 keeps only the last day |
| AlertRelay.Relay.TakeDropped | ops/alert_relay/main.py:101-103 | reports and clears the counter |
| AlertRelay.Relay.Deliver | ops/alert_relay/main.py:204-219 | what a message reports, and the state it leaves |
| AlertRelay.DequeMissesOnlyExpired | ops/alert_relay/main.py:105-111 | the deque always holds every send of the last minute in time order |
| AlertRelay.AtMostPerMinute | ops/alert_relay/main.py:105-111 | any half-open minute of any history holds at most per_minute sent alerts |
| AlertRelay.GoesOutIff | ops/alert_relay/main.py:82-111 | over any history an alert goes out exactly when it is no repeat and fewer than per_minute were sent in the minute before it |
| AlertRelay.ResolvedGoesOutIff | ops/alert_relay/main.py:86-91 | a resolved alert goes out exactly when fewer than per_minute were sent in the minute before it, and is dropped otherwise |
| AlertRelay.ResolvedDropped | ops/alert_relay/main.py:89-91 | under every limit, a history in which a resolved alert is dropped |
| AlertRelay.AlertConserves | ops/alert_relay/main.py:82-99 | one alert conserves the held repeats |
| AlertRelay.HeldAccounting | ops/alert_relay/main.py:82-117 | repeats held equal those reported, those still in the table and those lost to a prune; drops equal those reported and those pending |
| AlertRelay.TableRemembers | ops/alert_relay/main.py:93-98 | the table remembers the last alert sent for a fingerprint until another alert goes out a day later |
| AlertRelay.RepeatsAreSpaced | ops/alert_relay/main.py:85-88 | for dedup intervals of at most a day, or a minute more at one alert a minute, two sends of one fingerprint without a resolved one between are that far apart |
| AlertRelay.ForgettingRepeats | ops/alert_relay/main.py:113-117 | for a longer interval, a history in which they are not |
| AlertRelay.SpacingIff | ops/alert_relay/main.py:82-117 | for every limit: spacing is guaranteed exactly for dedup intervals of at most a day, a day and a minute when the limit is one, any interval when it is zero |
| AlertRelay.HeldIff | ops/alert_relay/main.py:82-88 | for dedup intervals of at most a day: an alert is held exactly when it is not resolved and the last alert for its fingerprint went out less than the interval ago |
| AlertRelay.ReportsHeld | ops/alert_relay/main.py:92-99 | an alert that goes out reports exactly the repeats held since the last one for its fingerprint, if that was less than a day ago, and never any others |
| AlertRelay.ForgottenIff | ops/alert_relay/main.py:93-117 | an entry goes only with the resolved alert for it, or a day after its alert when an alert goes out that leaves 500 or more entries |
| Comments.CommentService.CommentDepth | app/services/comments.py:119-131 | the depth if every ancestor is live, nine if the nearest eight are live and there are more, else an error |
| Comments.MeasuredUnique | app/services/comments.py:119-131 | those three answers exclude each other |
| Comments.CommentService.ValidateParent | app/services/comments.py:134-152 | admits a reply iff the parent is live, in the same movie and of live depth below eight, else the right error |
| Comments.VerdictUnique | app/services/comments.py:134-152 | a parent has one verdict only |
| Comments.CommentService.CreateComment | app/routers/comments.py:59-79 | one new row, or an error and no change |
| Comments.CommentService.SoftDelete | app/routers/admin/comments.py:79-80 | a live comment is marked deleted |
| Comments.StepKeepsShaped | app/services/comments.py:134-152 | validated creates, soft deletes and cascades keep depth at most eight and one movie per thread |
| Comments.ThreadsAreTrees | app/services/comments.py:119-152 | in every reachable state no comment is its own ancestor, threads stay in one movie, nothing is deeper than eight |
| Comments.MeasuredIsTrue | app/services/comments.py:119-131 | in every reachable state the measured depth is the true one, and is an error exactly when an ancestor is deleted |
| CommentThreads.FetchThreadRows | app/services/comments.py:199-229 | terminates and returns each visible comment that visible replies join to a root exactly once, and nothing else |
| CommentThreads.RepliesAre | app/services/comments.py:81-89 | the replies of a comment are exactly the fetched rows that answer it, each once |
| CommentThreads.RepliesInOrder | app/services/comments.py:87-89 | siblings are in creation order |
| CommentThreads.MetOnce | app/services/comments.py:81-91 | below comments of one depth, a row is met once if its ancestor is among them, else never |
| CommentThreads.ShownOnce | app/services/comments.py:56-91 | the forest shows every fetched comment exactly once, under its own parent, and nothing else |
| CommentThreads.ShownIff | app/services/comments.py:199-229 | a comment is shown exactly when its ancestors lead to a root of the page and it and all of them are live and by authors not blocked |
| CommentForest.IndexRows | app/services/comments.py:64-79 | a node for each row and the ids that answer each parent |
| CommentForest.BuildCommentThreads | app/services/comments.py:56-91 | every node's replies are the nodes of its sorted children, the result the nodes of the roots |
| CommentForest.WalkIsPreorder | app/services/comments.py:87-91 | following the nodes' own links meets the ids in that order |
| CommentForest.ListThreads | app/services/comments.py:232-272 | following the links from a page's roots meets each reachable visible comment exactly once, at every depth limit above eight |
| StableSort.SortIsStable | app/services/playback.py:117-117 | the sort is ascending and keeps the order of equal keys |
| StableSort.StableSortUnique | app/services/playback.py:117-117 | no other sequence is a stable sort of the same input |
| Text.SplitJoined | app/services/playback.py:95-122 | splitting undoes joining, except that no lines come back as one empty line |
| Text.StripMeans | app/services/playback.py:110-110 | stripping finds the visible core, whatever space surrounds it |
| Playlist.OrderForStartup | app/services/playback.py:88-122 | the loops compute the reordered text for every input |
| Playlist.WriteMaster | app/services/playback.py:118-121 | the header, then each tag with its URI |
| Playlist.BuildMaster | app/services/playback.py:131-139 | the rewrite followed by the reorder |
| Playlist.ParsePrinted | app/services/playback.py:95-121 | reading a written playlist gives back its header and variants |
| Playlist.ParseOrdered | app/services/playback.py:117-122 | the output reads as the same header over the stably sorted variants, for every text |
| Playlist.WellFormedOrdered | app/services/playback.py:88-122 | when each stream tag is followed by its URI, the header lines stay in order and the pairs are the stable ascending-bandwidth permutation, which is unique |
| Playlist.LosesNothingIff | app/services/playback.py:99-115 | no line is lost exactly when each stream tag is followed by its URI |
| Playlist.Idempotent | app/services/playback.py:88-122 | reordering twice is reordering once, for every text |
| Playlist.RewriteCommutes | app/services/playback.py:125-139 | reordering and the token rewrite commute, for every text |
| Playlist.UriLineIff | app/services/playback.py:43-46 | a URI line is one whose text, without the space around it, does not start with a hash sign |
| Playlist.ServedLines | app/services/playback.py:125-139 | the served playlist is the reordered one with each URI u replaced by v/u?t= and the token, every other line as it was |
| Playlist.FirstBandwidthWins | app/services/playback.py:78-85 | the number after the first match decides, read back exactly |
| Playlist.KeyIsAttributeIff | app/services/playback.py:78-85 | the sort key is the BANDWIDTH attribute's number exactly when no attribute whose name ends in BANDWIDTH stands before it with another number |
| Playlist.AverageWins | app/services/playback.py:78-85 | an AVERAGE-BANDWIDTH written first is the key, whatever follows |
| Playlist.NoMatchIsZero | app/services/playback.py:81-85 | a tag without such an attribute sorts as zero |
| ResponseCache.CatalogCache.CacheGet | app/services/response_cache.py:32-40 | an expired entry is dropped and never returned |
| ResponseCache.CatalogCache.Evict | app/services/response_cache.py:43-53 | no expired entry remains, and those that go expire no later than those that stay |
| ResponseCache.CatalogCache.FirstToExpire | app/services/response_cache.py:52-53 | an entry that expires no later than any other |
| ResponseCache.CatalogCache.CacheSet | app/services/response_cache.py:56-60 | stores the entry, after an eviction if the map is full and the key new |
| ResponseCache.CatalogCache.GetOrSet | app/services/response_cache.py:73-116 | the worker's copy, else the shared one copied down, else a fresh load stored at both levels |
| ResponseCache.CatalogCache.Delete | app/services/response_cache.py:119-122 | gone from the worker and from Redis |
| ResponseCache.StepKeepsFresh | app/services/response_cache.py:56-116 | one call keeps every entry young and every map within 512 entries |
| ResponseCache.ReturnedIsFresh | app/services/response_cache.py:73-116 | in every run a returned value is younger than the longest lifetime and no map exceeds 512 entries |
| ResponseCache.ReturnedWasLoaded | app/services/response_cache.py:73-116 | in every run a returned value was loaded for that very key by some call |
| ResponseCache.StaleForLessThanTwoTtls | app/services/response_cache.py:84-86 | with the default time to live, returned values can have exactly the ages below 60 seconds |
| ResponseCache.DeletedIsGone | app/services/response_cache.py:119-122 | after a delete the next read of the key, by the same worker at once and by any other a lifetime later, returns a value loaded after it |
| ResponseCache.DeleteLagIff | app/services/response_cache.py:119-122 | other workers can lag behind a delete by exactly the times below 30 seconds |
| ResponseCache.StoredIsServed | app/services/response_cache.py:32-60 | until it expires, a worker's copy is what that worker serves, unless it deletes it or its map is full |

## Left out

- StreamBandwidth: ASCII digits only; Python's pattern also takes other decimal digits and its int() refuses numbers of several thousand digits.
- AttributeAt: an attribute is recognised by the colon or comma before its name; commas inside quoted values are not told apart.
- RewriteCommutes: for tokens without whitespace, which a signed token never holds.
- BudgetBound: says nothing across a reset or a soft prune of the intent's entry, where the code starts a new count.
- SilentIffNothingFlying: each probe is a request and an answer; the check of the breaker and the sending are one step, and clocks are not negative.
- PaidAccessPersists: about what was bought; publication, free titles and administration are `AccessMeans`.
- ListThreads: the page of roots is an input (distinct visible comments without parent); its SQL ordering and paging are not modelled.
- CommentService.CreateComment: validation and insert are one transaction, and the comment body, edits, votes and reports play no part.
- DraftAsksPrice: a subscription checkout that names no plan takes the first active one; the model's request names the plan.
- HeldIff: for dedup intervals of more than a day only `ReportsHeld` says what is held.
- Requests are atomic except for create-or-reuse; each transaction reads the clock once.
- The Baray checkout and the webhooks, which answer 503, and the Bakong pending feed.
- Rows with neither user nor guest, subscription rows written by access codes or scripts, and account deletion.
- Which intents a sweep picks (age window, recently polled) is an input; a previous-md5 probe that raises ends the whole sweep unchanged.
- The md5 status cache and the clients behind it: each network answer is an input. A cap or breaker refusal appears as an unknown answer.
- Redis failure fallbacks, and the gap between Redis get and set inside one note.
- Deliver: a Telegram send that fails after an alert was admitted counts as sent. There is one relay process.
- GetOrSet: the Redis read, the load and the two stores happen at one instant, so the ages are those of instantaneous loads; a null body, which always reads as a miss, does not occur.
- The playlist caches, the variant playlists and the object store.
- Message texts, display names, device labels and notification delivery.
- Cryptography: tokens and signatures are unforgeable, codes and ids are fresh.
- The sweeper's process lock: one sweeper is assumed.
- Catalogue listings, search, banners, ratings, image processing, email, the watchdog and configuration checks.
