# Verified models of the ride platform's back end

This project models the state machines, protocols and arithmetic of the ride-hailing back end in
Dafny and proves what they promise: for every input, every run and every interleaving, not for
examples. `dafny verify dfyconfig.toml` checks all of it.

| module | what it is |
|---|---|
| `Matching` | concurrent searches that offer rides to drivers under a Redis lease |
| `Journal`, `Finance` | the double-entry ledger and the reports made from it |
| `Backfill`, `Reports` | how sales get into the ledger, live and by the backfill, and what cut-off postings do to the reports |
| `Geohash` | the six-character hash of the route cache |
| `RateLimit` | the fixed-window rate limiter |
| `Sessions` | login, refresh, logout and mode switch over Redis session keys |
| `Claims` | manual payment claims and the rides granted for them |
| `Documents` | versions of driver documents and the one-shot re-upload window |
| `Vehicles` | several vehicles to a driver, one of them active |
| `Entitlements` | the ride-credit ledger with its cached balances and the expiry sweep |
| `FareEngine`, `Negotiation` | the metered fare, the bounds on what can be agreed, and the rounds of offers |
| `Charging` | the credit taken from the driver when a fare is agreed, and given back when the ride is cancelled |
| `Campaigns` | notification campaigns claimed by several replicas |
| `Alerts`, `StableSort` | the merge of dashboard alerts, and the insertion sort it shares with matching |
| `Money` | thousands separators |

Code that changes tables, keys or fields is a class whose methods assign its fields, loops included.
Each method is proved equal to a function on the whole state, and the theorems are about those
functions over every sequence of events. Where interleaving is the point (matching, refreshing a
session, the backfill, campaign dispatch) a request is several steps and a run is any mixture of
steps of any number of participants; elsewhere a request or transaction is one step.

## What turned out not to hold

- `SweepExpired` calls itself safe to run repeatedly. The row a sweep writes counts as consumption
  in the next one, so a second sweep takes as much again out of credits that have not expired
  (`Entitlements.SecondSweepTakesLiveCredits`; exactly when, `Entitlements.SweepIsIdempotentIff`).
- A sweep reads all balances before it starts and locks nothing. A ride deducted meanwhile is recorded as
  expired as well, and the ledger no longer adds up to the balance (`Entitlements.LateSweepTakesARide`;
  exactly when, `Entitlements.LateSweepIsConsistentIff`).
- `AdminRevoke` and grants take amounts of either sign as long as one is positive: a revoke can add,
  and a grant can overdraw (`Entitlements.TwoRevokesIff`, `Entitlements.RunNonNegativeIff`; runs in
  `Entitlements.RevokeGivesBack`, `Entitlements.GrantOverdraws`).
- A credit is charged when a fare is agreed, but the charge sets its guard key before it asks the
  ledger, its failure is only logged, and nothing retries. A driver whose last credit is gone has his
  ride confirmed uncharged (`Charging.ConfirmedAndUncharged`; exactly when, `Charging.ChargedIff`).
- A refund never looks for the charge. If that ride is cancelled by the customer the driver is a
  credit up (`Charging.UnchargedAndRefunded`, `Charging.NetOfRide`, `Entitlements.RefundWithoutCharge`).
- The ledger backfill, and the posting of purchases an admin records, run outside a transaction. Cut
  off between an entry and its lines they leave a sale that every later attempt skips
  (`Backfill.KilledInsidePosting`, `Backfill.TornForever`). Revenue is complete exactly if there is no
  such entry and no paid purchase without one (`Backfill.RunRevenueIs`).
- A promotional purchase may have a price. It is paid from the start and not posted, so revenue is short
  of it even after a backfill (`Backfill.PromotionalSaleIsUnbooked`); a later backfill books it, as
  cash nobody received (`Backfill.PromotionalSaleIsBooked`).
- Balance sheets are said to balance by construction. They do for whole postings
  (`Finance.BalanceSheetBalances`). A posting cut off after its first line puts the trial balance and
  the sheet off by its debit for good (`Reports.CutOffUnbalances`, `Reports.OffForGood`; they balance
  exactly if there is none, `Reports.TrialBalanceBalancesIff`, `Reports.BalanceSheetBalancesIff`).
- The offer timeout is configurable and the lock's time to live is not. An offer that outlasts its
  lock can be doubled, and its delete then takes the other search's lock
  (`Matching.OverdueOfferCanBeDoubled`; a run from the start, `Matching.TwoLiveOffers`).
- A refresh reads its session and revokes it in two commands; two that overlap both get a pair
  (`Sessions.OneTokenTwoPairs`, `Sessions.RedeemedTwiceOnlyByOverlap`). One that overlaps with a ban
  gets its pair after it (`Sessions.RefreshOutlivesKickOut`).
- An approval reads the claim, grants, and updates it without looking again. Of two that overlap both
  grant, and a claim cancelled meanwhile is approved after all (`Claims.LateApprovalIsSoundIff`; a run,
  `Claims.TwoApprovalsGrantTwice`). One killed after its grant leaves the claim to be granted again
  (`Claims.KilledThenApproved`; exactly how many grants there are, `Claims.KilledRun`). The
  driver's transitions and rejections are unguarded in the same way (`Claims.LateMoveIsSoundIff`).
- The vehicle bounds and the band around the estimate can fail to overlap, and then no fare can be
  agreed (`Negotiation.SomeFareIsAcceptableIff`, `Negotiation.LongMotoRideHasNoFare`).
- Declining an offer withdraws nothing: exactly those who could accept it before still can
  (`Negotiation.DeclinedOfferCanBeAccepted`, `Negotiation.DeclinedThenAccepted`).
- The profile's transport type is meant to mirror the active vehicle's. Creating a first vehicle of
  another type, a rejected driver's new application and an edit in the console can make them differ;
  a switch puts it right (`Vehicles.MirrorsIff`, `Vehicles.RegistrationDeparts`,
  `Vehicles.ResubmissionDeparts`, `Vehicles.SwitchMirrors`).
- Deleting the active vehicle ignores that activating the next one failed, for want of a free plate, and
  then none is active (`Vehicles.SettledIff`, `Vehicles.OrphaningHappens`).
- The least 64-bit number is printed with two signs (`Money.CommasAsideIff`).

## Model

| member | source | states |
|---|---|---|
| Geohash.Geohash6 | api-server/internal/location/service.go:677-716 | The bisection loop over bounds, bit counter and byte buffer returns the text of the thirty alternating bits of the two bisections. |
| Geohash.Encode | api-server/internal/location/service.go:677-716 | The same loop for any number of characters. |
| Geohash.BisectionQuantises | api-server/internal/location/service.go:677-716 | For every point, range and number of bits, bisecting leaves exactly the cell of the clamped floor quantisation: its index and both its edges. |
| Geohash.BitsInterleave | api-server/internal/location/service.go:677-716 | Taking the alternating bits apart gives back the two bisection indices. |
| Geohash.LettersAreTheAlphabet | api-server/internal/location/service.go:677-716 | The letters are those of the base-32 string, in its order. |
| Geohash.TextRoundTrip | api-server/internal/location/service.go:677-716 | Reading the characters back gives the bits that were written, five to a character. |
| Geohash.HashRoundTrip | api-server/internal/location/service.go:677-716 | Decoding the hash of a point gives its two floor quantisations, at every precision. |
| Geohash.SameHashIffSameCell | api-server/internal/location/service.go:677-716 | Two points have the same hash if and only if they lie in the same grid cell. |
| Geohash.HashLocates | api-server/internal/location/service.go:677-716 | A point of the map, short of its northern and eastern rims, lies between the edges of the cell its hash decodes to. |
| Geohash.CacheKeyInjective | api-server/internal/location/service.go:658-660 | Two requests have the same cache key if and only if both their ends lie in the same cells and their vehicle types are equal. |
| StableSort.InsertionSort | api-server/internal/matching/engine.go:537-543 | The nested swapping loops leave the array sorted by the key, stably: its contents become Sort of its old contents. |
| StableSort.SortOrders | api-server/internal/matching/engine.go:537-543 | The result is ordered and a permutation of the input. |
| StableSort.SortIsStable | api-server/internal/matching/engine.go:537-543 | Elements of equal key keep their order. |
| StableSort.StableSortIsUnique | api-server/internal/matching/engine.go:537-543 | An arrangement is the result if and only if it is ordered and keeps every class of equal keys in its original order. |
| Alerts.ListAlerts | api-server/internal/dashboard/service.go:685-722 | Limit clamping, the kind filter, the error of the incident query and the partial answer when only the ticket query fails; otherwise the sorted and truncated merge. |
| Alerts.SortAndCut | api-server/internal/dashboard/service.go:712-720 | In-place insertion sort by time, newest first, then truncation. |
| Alerts.AlertsAreTheNewest | api-server/internal/dashboard/service.go:685-722 | From the newest limit rows of each table the answer is a newest-first selection of limit rows of the union of both full tables: nothing newer is left out. |
| Matching.Engine.StartSearch | api-server/internal/matching/engine.go:93-103 | A search begins with no rounds, nobody tried and no offers. |
| Matching.Engine.BeginRound | api-server/internal/matching/engine.go:158-195 | The head of the outer loop: the next round with the candidates found, or giving up after the last. |
| Matching.Engine.TryNextCandidate | api-server/internal/matching/engine.go:203-217 | The inner loop up to the SETNX: tried and unconnected drivers are skipped, the driver is marked tried, the lock is set only if none is alive. |
| Matching.Engine.StoreChannel | api-server/internal/matching/engine.go:453-456 | A fresh one-slot channel is stored under the ride and the offer is on. |
| Matching.Engine.Select | api-server/internal/matching/engine.go:461-475 | One turn of the select: a signal in the offered driver's name or in none ends the wait with its answer, one in another's name is dropped, the timer ends it unanswered; what an answer leads to is AnswerDecides. |
| Matching.Engine.DeleteChannel | api-server/internal/matching/engine.go:453-456 | The deferred delete that runs first removes the channel from the map. |
| Matching.Engine.DeleteLock | api-server/internal/matching/engine.go:408-412 | The deferred delete that runs second removes the lock key, whoever set it. |
| Matching.Engine.LoadChannel | api-server/internal/matching/engine.go:118-119 | The handler finds the channel stored under the ride, if there is one. |
| Matching.Engine.TrySend | api-server/internal/matching/engine.go:120-126 | The non-blocking send puts the signal into an empty slot and otherwise drops it; the result says which. |
| Matching.Engine.OfferToDriver | api-server/internal/matching/engine.go:404-476 | The channel, the select loop and the two deferred deletes: turn by turn, whatever the surroundings do before each step, the whole state is what Play says, in which every turn is one step of the program with that turn's answers and failures; until the offer returns or the turns are used up. |
| Matching.Engine.TryCandidates | api-server/internal/matching/engine.go:203-221 | So does the inner loop over one round's candidates, until the round ends, the driver is assigned, or the turns are used up. |
| Matching.Engine.RunLoop | api-server/internal/matching/engine.go:142-226 | So does the whole search, until it is over or the turns are used up. |
| Matching.PlayIsRun | api-server/internal/matching/engine.go:142-226 | What the program does in its surroundings is a run: their events, and one step of its own in each turn. So every theorem about runs is one about these loops. |
| Matching.ProgramTakesAnswer | api-server/internal/matching/engine.go:461-475 | In every run: when the program waits for d and an answer in his name or in none is there, then four of its turns later, unless the timer takes the first, d is assigned if it is an accept, and else the program is at its next candidate. |
| Matching.TurnBetweenRounds | api-server/internal/matching/engine.go:142-195 | Between rounds the program leaves if it is made to, goes on with the candidates found then, and gives up exactly when its rounds are used up. |
| Matching.OffersAreExclusive | api-server/internal/matching/engine.go:28-28 | In every interleaving of any number of searches in which no live offer gets as old as the lock's time to live, every live offer holds an unexpired lock of its own and no driver has two live offers. |
| Matching.UnlockDeletesItsOwnLock | api-server/internal/matching/engine.go:404-412 | In such runs the deferred delete removes that one lock and leaves the rest of the table as it was. |
| Matching.OverdueOfferCanBeDoubled | api-server/internal/matching/engine.go:404-412 | The condition is needed: once a live offer outlasts its lock, three steps of another search give the driver a second live offer, and the first search's delete then removes the second's lock. |
| Matching.TwoLiveOffers | api-server/internal/matching/engine.go:404-412 | A run from the start, for any two rides and any driver, that ends with both on offer to him. |
| Matching.OfferedOnce | api-server/internal/matching/engine.go:142-226 | In every run a search puts its ride to a driver at most once. |
| Matching.AssignedDriverAccepted | api-server/internal/matching/engine.go:404-476 | In every run, if a driver is assigned, then a handler found the offer's channel while the ride was on offer to him and nobody else, later a send put its accept, in his name or in no name, into that channel's empty slot, and later still the search, waiting for him on that channel, took it out. |
| Matching.AnswerDecides | api-server/internal/matching/engine.go:461-475 | In every run: while the ride waits for driver d and the channel of its offer holds an answer, then, whatever anybody else does between the search's next four steps, d is assigned if and only if the answer is an accept in his name or in none. His decline sends the search on to the next candidate, and an answer in another's name leaves it waiting. |
| Matching.AnswerArrives | api-server/internal/matching/engine.go:118-126 | A handler that looks the ride up while it waits for d gets its signal into that offer's slot, however much later it sends, as long as the offer is still waiting and no other signal is there. |
| Matching.WaitEndsIff | api-server/internal/matching/engine.go:461-475 | A wait for an answer is ended by a signal in the driver's name or in none, and by the timer not before its time; no other step of anybody ends it. |
| Matching.AssignedRun | api-server/internal/matching/engine.go:404-476 | A run from the start, for any ride and driver: found, locked, offered, accepted in his name, and assigned. |
| Matching.EndsIff | api-server/internal/matching/engine.go:142-226 | A search is over after a step if and only if it stopped or gave up between two rounds, was out of attempts, or had an accepted offer; which of these it was says how it ended. |
| Matching.RoundBegins | api-server/internal/matching/engine.go:158-195 | A round begins with all the candidates found, in their order, and counts one attempt; with no attempt left the search gives up. |
| Matching.FirstAvailableIsLocked | api-server/internal/matching/engine.go:203-217 | A round locks the first of its candidates who is connected, has not been tried and is on no other offer, and locks nobody else; if there is none it ends having locked nobody. |
| Matching.TryComesTo | api-server/internal/matching/engine.go:404-412 | Whatever Redis does: a connected driver not tried before counts as tried, is locked if he was free and the command was carried out, and is offered the ride only if its reply arrived too. |
| Matching.SearchIsBounded | api-server/internal/matching/engine.go:142-226 | In every run a search takes at most 62 steps for each attempt and one more, plus one for every signal handlers get into its channels. |
| Matching.SearchIsNeverStuck | api-server/internal/matching/engine.go:142-226 | A search that is not over always has a next step that brings it nearer its end, whatever drivers and Redis do. |
| Matching.BetterScoresLower | api-server/internal/matching/engine.go:340-344 | A driver who is nearer and no worse otherwise has the lower score. |
| Matching.ScoreInDistance | api-server/internal/matching/engine.go:335-345 | What the weights come to: one score is at most another if and only if the distance is, once each decline of the day, ten at most, has been counted as a 24th of the search radius and each percent of acceptance as a 400th. |
| Matching.SortCandidates | api-server/internal/matching/engine.go:537-543 | The candidates are sorted by score in place, stably. |
| Matching.NobodyPrecedesHisBetter | api-server/internal/matching/engine.go:299-361 | No candidate comes before another who is nearer, has declined no more and accepts no less. |
| Journal.Book.Post | api-server/internal/ledger/ledger.go:72-128 | Validation in the program's order with the first fault reported, running totals, then the insert that gives way to an existing key. |
| Journal.CheckIff | api-server/internal/ledger/ledger.go:72-97 | An entry passes validation if and only if it has two lines or more and a key, every line debits or credits a positive amount on a named account, and debits equal credits. |
| Journal.RefusalIs | api-server/internal/ledger/ledger.go:72-97 | What a refusal complains of: fewer than two lines, then a missing key, then the first bad line's fault, and imbalance only if every line is all right. |
| Journal.PostedIff | api-server/internal/ledger/ledger.go:102-127 | An entry is posted if and only if it is well formed and its key is new; posting appends it and anything else changes nothing. |
| Journal.RunIsSound | api-server/internal/ledger/ledger.go:72-128 | Every journal that whole postings can produce, in a transaction or not cut off, holds well-formed entries only and no key twice. |
| Journal.RunOnlyAppends | api-server/internal/ledger/ledger.go:102-127 | Nothing posted is ever changed or lost. |
| Journal.RetryChangesNothing | api-server/internal/ledger/ledger.go:69-71 | An attempt that repeats a posted key can be struck from any place in any run without changing the journal. |
| Finance.GetTrialBalanceRows | api-server/internal/finance/repository.go:165-203 | The row loop returns the rows and the sums of their two columns. |
| Finance.GetTrialBalance | api-server/internal/finance/service.go:28-39 | Whatever the journal, the totals are the debits and credits of all lines in the window, although accounts without lines are dropped and lines are regrouped; the flag says whether they agree. |
| Finance.TrialRowShows | api-server/internal/finance/repository.go:165-203 | A row of the trial balance is exactly the name of an account with lines in the window, with the debits and credits of those lines. |
| Finance.ClosedIsHalfOpen | api-server/internal/finance/repository.go:175-184 | Both ends of a reported period belong to it. |
| Finance.PeriodsAddUp | api-server/internal/finance/repository.go:208-225 | A total as of one date and the movements after it make the total as of a later date. |
| Finance.SumsExchange | api-server/internal/finance/repository.go:165-239 | Summed by groups that divide the chart or line by line, a total is the same. |
| Finance.UniqueNamesDivide | api-server/migrations/061_create_ledger.up.sql:8-29 | Listing every account once divides the chart if names are unique, as the seeded ones are. |
| Finance.DistinctGroupsDivideIff | api-server/internal/finance/repository.go:165-239 | A list of distinct names, or of distinct pairs of name and type, as GROUP BY yields, divides the chart if and only if it has the key of every account, however many accounts share a name. |
| Finance.BalancedInEveryWindow | api-server/internal/ledger/ledger.go:95-97 | In a journal of balanced entries debits equal credits in every window of dates. |
| Finance.TrialBalanceBalances | api-server/internal/finance/repository.go:165-203 | For every journal that whole postings can produce and every window, the trial balance balances; for the journals with cut-off postings see Reports. |
| Finance.GetBalanceSheet | api-server/internal/finance/service.go:45-89 | The loop sorts balances into sections in their order, every section adds up to its total, signs are those of the section, and revenue less expenses is the last line of equity. |
| Finance.BalanceSheetAsOf | api-server/internal/finance/service.go:41-89 | For any journal, tampered with or not: each total is the sum of the lines posted up to the date to accounts of its type, revenue less expenses is retained earnings, and assets less liabilities and equity is exactly what the trial balance up to the same date is off by. |
| Finance.KindsAreTheirLines | api-server/internal/finance/repository.go:205-239 | If the groups divide the chart, the balances listed under any types of account add up to the journal lines posted to accounts of those types. |
| Finance.SectionShows | api-server/internal/finance/service.go:54-71 | A section of the sheet shows exactly the accounts of its type that have moved, each under its name with the net of its own lines. |
| Finance.BalanceSheetBalances | api-server/internal/finance/service.go:41-44 | For every journal that whole postings can produce and every date, total assets equal total liabilities plus total equity, in the listed balances and in the journal lines by type; for other journals see Reports. |
| Finance.RevenueAddsUp | api-server/internal/ledger/ledger.go:158-179 | Revenue of consecutive half-open windows adds up to the revenue of the whole. |
| Finance.RevenueIsItsParts | api-server/internal/ledger/ledger.go:158-179 | With the two seeded revenue accounts the total is package sales plus commission. |
| Finance.RevenueIsKindNet | api-server/internal/ledger/ledger.go:158-179 | The revenue query and the balance sheet count the same lines. |
| Backfill.BackfillAll | api-server/cmd/ledger-backfill/main.go:40-100 | The command's two loops: afterwards every paid purchase with a price has an entry; every new entry is dated when its purchase was paid, and debits the MoMo account exactly for a MoMo payment, the manual one otherwise, against package revenue; and running it again would change nothing. |
| Backfill.RunSound | api-server/cmd/ledger-backfill/main.go:71-98 | Under any interleaving of any number of backfills, killed anywhere, with settlements, with purchases inserted as paid, and with live postings that may be missing or torn, no purchase gets a second entry and every entry is a paid purchase's own. |
| Backfill.CompletedRunBooksEverySale | api-server/cmd/ledger-backfill/main.go:40-98 | When a run has got to the end of its list, every purchase that was due at its start has its entry, whatever went on beside it. |
| Backfill.CompletedRunRevenue | api-server/internal/ledger/ledger.go:158-179 | Then package revenue is at least what was paid at its start less the torn entries. |
| Backfill.RunRevenueIs | api-server/internal/ledger/ledger.go:158-179 | In every run, at every point, package revenue is the sum of the prices of paid purchases, less those of torn entries, less those of purchases without an entry; it is that sum if and only if no paid purchase is torn or without an entry. |
| Backfill.SaleCountsWhenPaid | api-server/cmd/ledger-backfill/main.go:40-98 | In every window of dates an event raises package revenue by the price of the sale it books whole if that sale was paid within the window, and by nothing otherwise; the cash account is debited to which such payments go, even by a sale cut off after its first line. |
| Backfill.RevenueOfWindow | api-server/internal/ledger/ledger.go:158-179 | In every run and every window package revenue is the sum of the prices of the sales booked whole, each by the time of payment it had when it was booked; and each cash account holds the prices of those received on it. |
| Backfill.BookedIffEntered | api-server/internal/ledger/ledger.go:102-127 | A purchase has an entry if and only if some step of the run entered it. |
| Backfill.EnteredOnce | api-server/internal/ledger/ledger.go:102-127 | No two steps enter the same purchase. |
| Backfill.PurchaseLives | api-server/internal/packages/purchase.go:302-351 | A purchase goes in as it was made unless its id is taken, and after any run it is what its own settlement, once, and the dates given to it have made of it. |
| Backfill.KilledForGood | api-server/cmd/ledger-backfill/main.go:71-98 | A backfill that was killed posts nothing more. |
| Backfill.SettlingBooks | api-server/internal/packages/purchase.go:302-351 | As long as purchases become paid only by settlements with the ledger wired in, no paid purchase is ever without its entry. |
| Backfill.PromotionalOnlyByBackfill | api-server/internal/packages/purchase.go:256-271 | In every run without postings by a backfill no promotional purchase is booked. |
| Backfill.PromotionalSaleIsUnbooked | api-server/internal/packages/purchase.go:256-271 | A run in which a backfill has completed, nothing is torn, and revenue is short of the price of a promotional purchase. |
| Backfill.PromotionalSaleIsBooked | api-server/cmd/ledger-backfill/main.go:40-98 | A run in which a later backfill books its price as cash received and as revenue, although no payment was taken. |
| Backfill.TornForever | api-server/internal/ledger/ledger.go:102-127 | An entry whose lines were not all inserted is never completed by a later attempt. |
| Backfill.KilledInsidePosting | api-server/internal/ledger/ledger.go:116-126 | A posting that is cut off between inserting an entry and its lines, a backfill's or a live one, leaves the sale torn unless it had an entry before. |
| Backfill.NoTearNoLoss | api-server/cmd/ledger-backfill/main.go:71-98 | Killed only between postings, however often, the command loses nothing. |
| Backfill.BookRevenueIsReported | api-server/internal/ledger/ledger.go:158-179 | The sum used above is the package revenue the ledger's query reports for all of time. |
| Reports.NetOfRun | api-server/internal/ledger/ledger.go:116-126 | In every run of settlements, live postings and backfills, wherever they are cut off, debits exceed credits in a window by the debits of its entries that have their first line only, and are equal if and only if it has none. |
| Reports.TrialBalanceBalancesIff | api-server/internal/finance/repository.go:165-203 | The trial balance is off by just that, for every chart with the sales accounts, and balances if and only if no entry in the window has exactly one line. |
| Reports.BalanceSheetBalancesIff | api-server/internal/finance/service.go:41-89 | The balance sheet as of a date is off by the same up to that date, and balances if and only if no entry up to it has exactly one line. |
| Reports.OffForGood | api-server/internal/ledger/ledger.go:102-127 | What the reports are off by is never made up for, whatever is posted afterwards. |
| Reports.CutOffUnbalances | api-server/internal/packages/purchase.go:487-522 | A run of two events, a purchase recorded by an admin and its posting cut off after the first line, that leaves debits exceeding credits by the price. |
| RateLimit.Limiter.AtomicIncr | api-server/internal/middleware/ratelimit.go:26-38 | The script increments a live counter, or starts one that expires after the window. |
| RateLimit.Limiter.Serve | api-server/internal/middleware/ratelimit.go:95-119 | For any mixture of keys, each key's counter and number of admitted requests are those of its own requests. |
| RateLimit.LifeAdmitsAtMost | api-server/internal/middleware/ratelimit.go:95-119 | From a key's creation until it expires at most max requests are admitted. |
| RateLimit.WindowsAdmitAtMost | api-server/internal/middleware/ratelimit.go:95-119 | Any half-open stretch of k windows admits fewer than (k + 1) * max requests, and at most k * max if no counter is live as it starts, for every arrival sequence. |
| RateLimit.BoundIsMet | api-server/internal/middleware/ratelimit.go:26-38 | The bound cannot be lowered: a run in which a stretch of k windows admits (k + 1) * max - 1. |
| Sessions.Store.IssueTokenPair | api-server/internal/auth/service.go:525-582 | Two fresh tokens with a session key each; that they are honoured is LoginHonours. |
| Sessions.LoginHonours | api-server/internal/auth/service.go:525-582 | After a login both new tokens are honoured, as the user's access and refresh token, if their lifetimes are positive; and every older token is honoured if and only if it was. |
| Sessions.NewTokensLast | api-server/internal/auth/service.go:525-582 | In every run from the start a token that a login or a refresh has issued is honoured at a later time if and only if it has not run out and nothing has ended it. |
| Sessions.Store.CheckRefresh | api-server/internal/auth/service.go:422-463 | A refresh token must be signed as such, unexpired and have a live refresh session; an expired ban is lifted, a suspended user's session revoked. |
| Sessions.Store.RotateSession | api-server/internal/auth/service.go:464-469 | The old session is revoked, then a new pair issued. |
| Sessions.RotateHonours | api-server/internal/auth/service.go:464-469 | After a rotation the same holds, except that the token traded in is refused. |
| Sessions.Store.LogoutUser | api-server/internal/auth/service.go:488-512 | The access session is revoked, and the refresh session if the token is valid and the same user's. |
| Sessions.Store.RevokeAccessSessionsOnly | api-server/internal/location/service.go:615-623 | Scanning the user's keys in any order, with repetitions, deletes exactly those that say "access". |
| Sessions.NeverRevived | api-server/internal/middleware/auth.go:156-168 | A token that has been refused once is refused ever after, in every run. |
| Sessions.HonouredUntil | api-server/internal/middleware/auth.go:156-168 | In every run an honoured token stays so until it runs out, or a logout with it, a mode switch of its user if it is an access token, its rotation, an attempt to refresh with it while its user is suspended, or the kick-out of its user: exactly until the first of these. |
| Sessions.RedeemedTwiceOnlyByOverlap | api-server/internal/auth/service.go:446-469 | In every run, a refresh token can be redeemed a second time only by a request that had read the session before the first one rotated it. |
| Sessions.RedeemedOnce | api-server/internal/auth/service.go:464-469 | Where refreshes of one token do not overlap it is redeemed once at most. |
| Sessions.OverlapRedeemsTwice | api-server/internal/auth/service.go:446-469 | Two requests that have both read the session both get a pair. |
| Sessions.OneTokenTwoPairs | api-server/internal/auth/service.go:446-469 | A run from the start in which one refresh token is redeemed twice. |
| Sessions.RefreshKeepsCount | api-server/internal/auth/service.go:464-469 | A refresh leaves the number of the user's live refresh sessions as it was, unless the old session has died since it was read, when there is one more; nobody else's change. |
| Sessions.SuspendedGetsNoPair | api-server/internal/auth/service.go:450-463 | After a suspension, whatever happens until another of the same user, his refresh goes through if and only if the token is good and the ban had an end that has passed; before that the attempt costs him the token. |
| Sessions.SwitchModeDrops | api-server/internal/location/service.go:597-623 | A mode switch refuses exactly the user's access tokens. |
| Sessions.SwitchModeKeepsRefresh | api-server/internal/location/service.go:597-623 | The set of honoured refresh tokens stays as it was, for every user. |
| Sessions.SwitchModeForGood | api-server/internal/location/service.go:597-623 | No access token issued before the switch is honoured at any time after it. |
| Sessions.LogoutForGood | api-server/internal/auth/service.go:488-512 | After a logout neither token is ever honoured again. |
| Sessions.Store.RevokeUserSessions | api-server/internal/ride/service.go:318-325 | The scan of a ban, an approval or an account's deletion deletes every key of the user. |
| Sessions.KickOutDrops | api-server/internal/ride/service.go:318-325 | Afterwards exactly the other users' honoured tokens are honoured. |
| Sessions.KickOutForGood | api-server/internal/auth/service.go:584-605 | No token issued to the user before is ever honoured again. |
| Sessions.RefreshOutlivesKickOut | api-server/internal/auth/service.go:446-469 | A refresh that had read its session before still gets a pair that is honoured. |
| Claims.RidesFor | api-server/internal/packagepayments/service.go:78-85 | Rides are None if the vehicle is unknown or the amount too small, and otherwise the floor of amount by price, at least one. |
| Claims.NamedInAnyDress | api-server/internal/packagepayments/service.go:36-66 | Text stands for a vehicle type if and only if, blanks at both ends and the case of letters aside, it is the type's code or its mobile name. |
| Claims.ValidIff | api-server/internal/packagepayments/service.go:166-200 | A claim is taken up if and only if it names an enabled provider, a key, a vehicle, a phone and an amount, and either buys a ride for a known vehicle type or names the offer of its package. |
| Claims.ComplaintIs | api-server/internal/packagepayments/service.go:166-200 | The answer otherwise: which complaint comes first. |
| Claims.Desk.CreateClaim | api-server/internal/packagepayments/service.go:166-233 | Validation in the program's order, the insert that gives way to an existing key, and one audit row for a new claim. |
| Claims.Desk.ExpireStale | api-server/internal/packagepayments/repository.go:95-101 | The user's created and submitted claims past their expiry become expired, with a new version. |
| Claims.Desk.Transition | api-server/internal/packagepayments/service.go:266-303 | Stale claims expire first; then the owner's claim moves if its status allows, with a new version and an audit row. |
| Claims.Desk.ApproveClaim | api-server/internal/packagepayments/admin.go:150-192 | An approved claim is returned unchanged; only a submitted one is granted and approved. |
| Claims.Desk.RejectClaim | api-server/internal/packagepayments/admin.go:197-217 | Only a submitted claim is rejected. |
| Claims.RunSound | api-server/internal/packagepayments/repository.go:43-124 | In every run a claim's audit trail is an allowed path to its status, its version is the length of the trail, one more exactly if it has expired, it has one grant if it is approved and none otherwise, and a user's key has one claim. |
| Claims.FinalIsFinal | api-server/internal/packagepayments/service.go:293-303 | An approved, cancelled or expired claim never changes again, and no claim changes its owner or terms. |
| Claims.ClaimKeepsItsTerms | api-server/internal/packagepayments/service.go:202-220 | A claim is created exactly if the input is valid and the key new to the user; it then has the terms of the input and two hours to live, and after any later requests it still has. |
| Claims.LookLapses | api-server/internal/packagepayments/repository.go:95-101 | A look by the owner expires exactly his created and submitted claims that are past their time, and changes no other. |
| Claims.TrailIsPath | api-server/internal/packagepayments/service.go:293-303 | In every run a claim's audit trail is a path from its creation along a fixed table of successors, and its status is that of the last action, unless it lapsed when created or submitted. |
| Claims.AnswersAre | api-server/internal/packagepayments/admin.go:150-217 | In every run the answers to approvals, rejections and the owner's requests are decided by the last action on the claim and by whether it has lapsed: done exactly if the action may follow. |
| Claims.NeverInvalidCustomClaim | api-server/internal/packagepayments/admin.go:170-175 | What Create lets through can always be granted: the error is unreachable. |
| Claims.ApproveIsItsHalves | api-server/internal/packagepayments/admin.go:150-188 | With nothing in between, the read and the grant with its update are the approval. |
| Claims.LateApprovalIsSoundIff | api-server/internal/packagepayments/admin.go:150-188 | If other requests come between an approval's read and its grant and update, everything is in order afterwards if and only if the claim is still submitted; after another approval it has two grants. |
| Claims.TwoApprovalsGrantTwice | api-server/internal/packagepayments/admin.go:150-188 | A run from empty tables: a claim created and submitted, two approvals that have both read it, two grants. |
| Claims.LateMoveIsSoundIff | api-server/internal/packagepayments/service.go:266-291 | A driver's transition or a rejection that was checked against an earlier status leaves everything in order if and only if the status at the time of the update still allows it. |
| Claims.KilledRun | api-server/internal/packagepayments/admin.go:165-186 | In every run with approvals killed between grant and update a claim has one grant if it is approved and one more for each such kill; so its grants are right if and only if there was none. |
| Claims.KilledThenApproved | api-server/internal/packagepayments/admin.go:165-186 | For every submitted claim: after such a kill it has a grant, the next approval goes through, and it has two. |
| Claims.GrantedIsOwed | api-server/internal/packagepayments/admin.go:165-182 | In every run the rides granted for custom claims are the sum of floor(amount / price) over the approved ones. |
| Documents.Table.UpsertDocument | api-server/internal/driver/repository.go:286-347 | An approved version without a window is locked to the driver; otherwise it is superseded, a pending one added, and the window used up. |
| Documents.Table.UpsertDriverDocument | api-server/internal/admin/drivers.go:482-521 | The console supersedes and adds without looking at status or window. |
| Documents.Table.SetDocumentReview | api-server/internal/driver/repository.go:373-390 | A review changes the status of a live version only. |
| Documents.Table.RequestDocumentReupload | api-server/internal/driver/repository.go:351-368 | A request opens the window of the live version. |
| Documents.Table.ListDocuments | api-server/internal/driver/repository.go:400-423 | The loop lists the driver's live versions with their editable flags. |
| Documents.RunKeepsOneLive | api-server/internal/driver/repository.go:286-347 | In every run a driver who ever had a document of a type has exactly one live version of it. |
| Documents.VersionsAreForGood | api-server/internal/driver/repository.go:277-285 | Versions are never lost, files never change, and a superseded version keeps its file and review status for ever. |
| Documents.StatusComesFromReview | api-server/internal/driver/repository.go:316-319 | A version that is not pending has had a review of itself with that result. |
| Documents.StandsByItself | api-server/internal/driver/repository.go:286-390 | In every run what stands for a driver and document type is what its own uploads, reviews and requests, taken one by one, have made of it: the last file accepted with the last review of that version. |
| Documents.AnswersAre | api-server/internal/driver/repository.go:286-390 | An upload is refused exactly by an approved document without an open window, a review finds exactly the versions that stand, a request any document there ever was; what is refused changes nothing. |
| Documents.ReplacementsAreRequested | api-server/internal/driver/repository.go:336-346 | In every run the driver replaces approved versions no more often than re-uploads were requested, and an open window counts as one to come. |
| Documents.EditableIffUploadable | api-server/internal/driver/repository.go:392-423 | In every run the editable flag is true if and only if the driver's upload would succeed; of a type not listed any upload does. |
| Vehicles.Garage.InsertVehicle | api-server/internal/driver/vehicles.go:135-161 | The new row goes in active or not, as asked, the driver's other rows giving up their flags to an active one; a plate already registered is refused. |
| Vehicles.Garage.CreateVehicle | api-server/internal/driver/vehicles.go:314-322 | The new vehicle is active exactly if the driver has none yet. |
| Vehicles.Garage.ListVehicles | api-server/internal/driver/vehicles.go:282-312 | A missing first row is made up from the profile. |
| Vehicles.Garage.UpdateVehicle | api-server/internal/driver/vehicles.go:324-337 | Fields given are replaced, unless the row is active during a ride or the plate is taken. |
| Vehicles.Garage.DeleteVehicle | api-server/internal/driver/vehicles.go:339-353 | The last vehicle stays, an active one stays during a ride, and the oldest takes over from a deleted active one. |
| Vehicles.Garage.ActivateVehicle | api-server/internal/driver/vehicles.go:358-379 | An approved driver without a ride in progress switches; flags and profile change together. |
| Vehicles.Garage.ActivateRow | api-server/internal/driver/vehicles.go:242-274 | All of the driver's flags are cleared, the one set, and the profile takes over its type, plate and capacity; if another profile has the plate nothing changes. |
| Vehicles.Garage.SubmitApplication | api-server/internal/driver/service.go:109-165 | A first application makes the profile and an active first row; a rejected driver's new one overwrites the profile and no row; any other is refused, as is one with a plate or a licence number another profile has. |
| Vehicles.Garage.UpdateDriver | api-server/internal/admin/drivers.go:531-567 | The console overwrites the profile's fields that are given, unless another profile has the plate or the licence number. |
| Vehicles.Garage.CreateDriverFromAdmin | api-server/internal/admin/drivers.go:618-700 | A driver registered in the console has an approved profile and no row; refused if he has a profile or another has the plate or the licence number. |
| Vehicles.RunSound | api-server/internal/driver/vehicles.go:135-274 | In every run no driver has two active vehicles, and ids, registered plates, and plates and licence numbers of profiles are unique. |
| Vehicles.InsertClears | api-server/internal/driver/vehicles.go:135-161 | A row that goes in active takes the flags from exactly the driver's other rows, even if its plate turns out to be registered and it is not added. |
| Vehicles.CreateIs | api-server/internal/driver/vehicles.go:314-322 | A vehicle is added as described unless its plate is registered, active exactly if it is the driver's first, and no other vehicle or profile is touched. |
| Vehicles.ListIs | api-server/internal/driver/vehicles.go:282-312 | Listing adds nothing but a vehicle made from the profile, for a driver without one whose profile has a type and a free plate. |
| Vehicles.UpdateIs | api-server/internal/driver/vehicles.go:324-337 | Exactly the one row changes, in plate and details alone; refused for the active one on a ride and for a plate of another vehicle. |
| Vehicles.SwitchIs | api-server/internal/driver/vehicles.go:358-379 | Afterwards exactly that vehicle of the driver's is active, others' rows and all other columns are as before, and the profile shows it; the refusals in their order. |
| Vehicles.DeleteIs | api-server/internal/driver/vehicles.go:209-237 | The other rows stay; if the deleted vehicle was active, the one with the least id of the driver's others becomes active, in his profile too, unless another profile has its plate. |
| Vehicles.LastStays | api-server/internal/driver/vehicles.go:339-353 | A driver's only vehicle is not deleted. |
| Vehicles.ApplyIs | api-server/internal/driver/service.go:109-165 | An application is taken exactly from a driver without a profile or with a rejected one, with credentials no other profile has; it makes the profile anew and, for a new driver, an active first vehicle if the plate is free. |
| Vehicles.ConsoleIs | api-server/internal/admin/drivers.go:531-700 | A registration in the console makes an approved profile and no vehicle; an edit writes the columns given and leaves all others. |
| Vehicles.SettledIff | api-server/internal/driver/vehicles.go:209-237 | Every request leaves a driver who has vehicles with an active one, except deleting the active one when another driver's profile has the plate of the one to take over: exactly then, the failed activation being ignored, he has none. |
| Vehicles.ExactlyOneActive | api-server/internal/driver/vehicles.go:135-274 | In every run without that a driver with vehicles has exactly one that is active. |
| Vehicles.OrphaningHappens | api-server/internal/driver/vehicles.go:209-237 | A run of four requests that leaves a driver with one vehicle and none active. |
| Vehicles.AlwaysAVehicle | api-server/internal/driver/vehicles.go:209-237 | A driver who has a vehicle has one ever after. |
| Vehicles.MirrorsIff | api-server/internal/driver/vehicles.go:135-274 | Every request keeps the profile's transport type equal to the active vehicle's type, except creating a first vehicle with another type and writing the profile's type to something else than the active vehicle's, by a rejected driver's new application or in the console, where plate and licence number are free: exactly then they differ. |
| Vehicles.RunMirrors | api-server/internal/driver/vehicles.go:163-179 | They agree in every run without those. |
| Vehicles.ResubmissionDeparts | api-server/internal/driver/repository.go:660-695 | A run in which the first row mirrors the profile, the driver is rejected, applies again, and they differ. |
| Vehicles.RegistrationDeparts | api-server/internal/driver/vehicles.go:314-322 | A run in which a driver registered in the console creates his first vehicle with another type, and they differ. |
| Vehicles.SwitchMirrors | api-server/internal/driver/vehicles.go:242-274 | After a switch they agree in any case. |
| Vehicles.OnRideIff | api-server/internal/driver/vehicles.go:324-379 | In every run a driver counts as on a ride if and only if his last ride has begun and not ended. |
| Vehicles.RideKeepsVehicle | api-server/internal/driver/vehicles.go:324-379 | From the start of a ride to its end the active row does not change in any column, whatever is requested. |
| Vehicles.RideKeepsProfileIff | api-server/internal/driver/repository.go:660-695 | During a ride a request changes the profile's vehicle columns if and only if it is a rejected driver's new application, or an edit in the console, with other values and with plate and licence number free. |
| Entitlements.Ledger.GrantCredits | api-server/internal/packages/ledger.go:58-101 | A ledger row with the new balance and the cached balance, unless the key is taken. |
| Entitlements.Ledger.DeductOne | api-server/internal/packages/ledger.go:105-159 | One ride, paid before bonus, once per ride, only if there is a balance. |
| Entitlements.Ledger.RefundOne | api-server/internal/packages/ledger.go:163-203 | One paid ride back, once per ride. |
| Entitlements.Ledger.AdminRevoke | api-server/internal/packages/admin_entitlements.go:226-281 | Both components reduced and clamped at zero, the actual change recorded; nothing recorded if there is none. |
| Entitlements.Ledger.SweepExpired | api-server/internal/packages/ledger.go:384-455 | The loop recomputes every balance and counts those it lowers. |
| Entitlements.RunConsistent | api-server/internal/packages/ledger.go:58-203 | In every run from empty tables the cached balance is the replay of the rows, every row's balance is its prefix sum, and no key occurs twice. |
| Entitlements.GrantedMinusConsumed | api-server/internal/packages/admin_entitlements.go:117-130 | In every run granted minus consumed equals rides plus bonus rides remaining. |
| Entitlements.BalanceIsTheTally | api-server/internal/packages/ledger.go:58-203 | In every run without sweeps a balance is what the operations make of it one by one: grants and refunds added, a paid ride spent while there is one and else a bonus ride, revocations down to zero, repeated keys and empty balances left out. |
| Entitlements.DeductAnswers | api-server/internal/packages/ledger.go:105-159 | A deduction is skipped exactly for a used key and refused exactly for an empty balance, the key first; the tables change exactly if it is done. |
| Entitlements.RevokeAnswers | api-server/internal/packages/admin_entitlements.go:226-281 | A revocation is refused for amounts not positive and for an owner without a balance, and skipped exactly if it would take nothing. |
| Entitlements.RideChargedOnce | api-server/internal/packages/ledger.go:105-203 | In every run a ride has at most one deduction row and at most one refund row, whoever owns them, and what its rows add to any driver's balance is one if he was refunded less one if he was charged. |
| Entitlements.DeductDoneIff | api-server/internal/packages/ledger.go:105-159 | A deduction goes through if and only if no row has the ride's id for its key and the driver's cached balance is positive; it then takes exactly one. |
| Entitlements.RefundIgnoresCharge | api-server/internal/packages/ledger.go:163-203 | Whether a refund goes through does not depend on whether the ride was charged just before. |
| Entitlements.RefundWithoutCharge | api-server/internal/packages/ledger.go:163-203 | A run of one refund that leaves a credit for a ride never charged. |
| Entitlements.TakenKeyBlocksCharge | api-server/internal/packages/ledger.go:112-119 | Once a row of any kind has a ride's id for its key, no run charges that ride. |
| Entitlements.ApplyNonNegativeIff | api-server/internal/packages/ledger.go:58-101 | Whatever the operation, no balance is negative afterwards, unless it is a grant that takes away more than there is: then, and only then, one is. |
| Entitlements.RunNonNegativeIff | api-server/internal/packages/ledger.go:58-101 | No balance is negative at any point of a run if and only if none of its grants takes away more than there is. |
| Entitlements.GrantOverdraws | api-server/internal/packages/ledger.go:58-101 | A run of a purchase and a grant after which one is. |
| Entitlements.RevokesCompose | api-server/internal/packages/admin_entitlements.go:233-281 | A series of revokes of non-negative amounts leaves what one revoke of their sum leaves. |
| Entitlements.TwoRevokesIff | api-server/internal/packages/admin_entitlements.go:226-281 | With amounts of either sign that holds exactly when no component is cut off at zero and then raised. |
| Entitlements.RevokeGivesBack | api-server/internal/packages/admin_entitlements.go:226-281 | Runs after a purchase of one ride: two revokes leave it, one revoke of their sum takes it. |
| Entitlements.SweepLeaves | api-server/internal/packages/ledger.go:379-383 | A sweep leaves exactly the recomputed balance and never adds credits. |
| Entitlements.SweepTakesLapsed | api-server/internal/packages/ledger.go:384-455 | What that is: the balance less all credits that have ever lapsed, spent or not, down to zero. |
| Entitlements.PromisedIs | api-server/internal/packages/ledger.go:379-383 | The promised balance is the same once what earlier sweeps took has been given back. |
| Entitlements.SweepIsIdempotentIff | api-server/internal/packages/ledger.go:379-383 | The program calls the sweep safe to run repeatedly. At one and the same time a second one changes nothing if and only if the first did not take part, but not all, of the rides or of the bonus rides. |
| Entitlements.SweepKeepsPromiseIff | api-server/internal/packages/ledger.go:379-383 | A sweep leaves unexpired grants minus consumption if and only if, for each component, no earlier sweep took any or nothing is due. |
| Entitlements.SecondSweepTakesLiveCredits | api-server/internal/packages/ledger.go:384-455 | A run in which a second sweep takes permanent rides away. |
| Entitlements.SweepIsItsHalves | api-server/internal/packages/ledger.go:384-455 | With nothing between reading a balance and writing, the write is the sweep. |
| Entitlements.LateSweepIsConsistentIff | api-server/internal/packages/ledger.go:385-455 | A write that comes later leaves cache, replay and row balances consistent if and only if it writes nothing or the balance is still the one that was read. |
| Entitlements.LateSweepTakesARide | api-server/internal/packages/ledger.go:385-455 | For every number of permanent rides: one is deducted between the read and the write, and the sweep records an expiry of one, so that the replay is one less than the cached balance. |
| FareEngine.FareSlopeInDistance | api-server/internal/fare/engine.go:36-82 | For every accepted configuration the total never falls with distance and rises per kilometre by the dearer tier's rate, with the night surcharge if it is night, at most. |
| FareEngine.FareSlopeInWaiting | api-server/internal/fare/engine.go:69-76 | Nor does it fall with waiting, and a minute costs a minute's rate at most. |
| FareEngine.FareIsAtLeastMin | api-server/internal/fare/engine.go:64-67 | The total is at least the minimum fare, which is positive, and equals it on a short day ride without waiting. |
| FareEngine.NightIsAnInterval | api-server/internal/fare/engine.go:84-90 | The night test is the interval from start to end on the clock face, across midnight or not, and its complement is the interval from end to start. |
| FareEngine.FareIs | api-server/internal/fare/engine.go:36-82 | For every accepted configuration the fare is the larger of the minimum and the price of the way, which is the base fare plus the kilometres of each tier at its rate, all of it raised by the surcharge between the two hours of the clock; plus the rate for each minute of waiting beyond the free ones. |
| FareEngine.FareRisesInDistance | api-server/internal/fare/engine.go:36-67 | Above the minimum every further kilometre beyond the base distance adds at least the cheaper rate, with the surcharge if it is night. |
| FareEngine.FareRisesInWaiting | api-server/internal/fare/engine.go:69-76 | Every further minute beyond the free ones adds exactly its rate. |
| Negotiation.BoundsForVehicle | api-server/internal/negotiation/fare_bounds.go:23-42 | Every vehicle has a floor of 500 or more below a cap of 100000 or less. |
| Negotiation.MeteredFareIsInItsBand | api-server/internal/negotiation/service.go:116-136 | The metered fare of every accepted configuration is inside the band built from it. |
| Negotiation.MeteredFareIsAcceptableIff | api-server/internal/negotiation/service.go:141-163 | It can be agreed if and only if it is within the vehicle's hard bounds. |
| Negotiation.SomeFareIsAcceptableIff | api-server/internal/negotiation/service.go:141-163 | There is a fare that can be agreed if and only if the hard bounds and the band overlap. |
| Negotiation.AllowedIff | api-server/internal/negotiation/service.go:116-163 | A fare passes if and only if it is within the vehicle's bounds and, where a configuration is found, at least its minimum and sixty per cent of the estimate, and at most ten times the one or eighteen tenths of the other. |
| Negotiation.ComplaintIs | api-server/internal/negotiation/service.go:141-163 | Otherwise the answer names the bound that is missed, the vehicle's before the band's, the lower before the upper. |
| Negotiation.LongMotoRideHasNoFare | api-server/internal/negotiation/fare_bounds.go:26-35 | No fare can be agreed for a motorcycle ride with an estimate whose sixty per cent exceed 4000. |
| Negotiation.Desk.ProposeFare | api-server/internal/negotiation/service.go:166-245 | Status, fare checks and the limit of three a side, in that order; then the next numbered round. |
| Negotiation.Desk.AcceptFare | api-server/internal/negotiation/service.go:248-313 | The latest round, if it is the other party's and its amount still passes, is accepted and locked. |
| Negotiation.Desk.LockManualFare | api-server/internal/negotiation/service.go:316-364 | The driver locks an amount that passes the checks. |
| Negotiation.Desk.DeclineFare | api-server/internal/negotiation/service.go:367-408 | The latest round is marked declined, whoever made it. |
| Negotiation.Desk.LockFare | api-server/internal/ride/repository.go:468-480 | A fare is locked once, and the ride confirmed. |
| Negotiation.RunSound | api-server/internal/negotiation/service.go:166-364 | In every run rounds are numbered 1 to n, at most three a side; every offer and the agreed fare are within the hard bounds; a confirmed ride has an agreed fare, and one still negotiated has none. |
| Negotiation.AtMostSixRounds | api-server/internal/negotiation/service.go:27-27 | In every run there are at most six rounds. |
| Negotiation.ProposeIff | api-server/internal/negotiation/service.go:166-245 | In every run an offer is taken if and only if the ride is still negotiated, the fare passes and the party has made fewer than three; it becomes the next round and nothing else changes. |
| Negotiation.OfferIsAgreed | api-server/internal/negotiation/service.go:248-364 | In every run an offer just taken can be accepted by the other party and not by its maker: its amount is then agreed and the ride confirmed. And the driver can lock any amount that could be offered. |
| Negotiation.AnswersAre | api-server/internal/negotiation/service.go:248-364 | In every run the answers to an acceptance and to a locked amount: the status first, then whose the latest round is, then the bound its amount misses; what is refused changes nothing. |
| Negotiation.DeclineMarks | api-server/internal/negotiation/service.go:367-408 | A decline marks the latest offer and changes nothing else. |
| Negotiation.AgreedFareIsAgreed | api-server/internal/negotiation/service.go:248-364 | In every run an agreed fare was locked by the driver, or is the amount of what was then the latest round, made by the other party than the one that accepted it. |
| Negotiation.AgreedFareStays | api-server/internal/ride/repository.go:468-480 | An agreed fare never changes. |
| Negotiation.DeclinedOfferCanBeAccepted | api-server/internal/negotiation/service.go:248-278 | In every run, and after any number of declines of the latest round, accepting it goes through if and only if it would have without: for the party that did not make it, be it the one that declined, if the amount is within the bounds; the fare agreed is that amount. |
| Negotiation.DeclineWithdrawsNothing | api-server/internal/negotiation/service.go:367-408 | For every ride a decline changes neither the result of accepting nor the fare agreed by it. |
| Negotiation.DeclinedThenAccepted | api-server/internal/negotiation/service.go:248-278 | A run in which an offer is declined and then accepted. |
| Negotiation.GetHistory | api-server/internal/negotiation/service.go:480-546 | The loop with its two indices computes the merge of offers and texts. |
| Negotiation.MergeIsStableSort | api-server/internal/negotiation/service.go:480-546 | The merge is the stable sort by time of offers followed by texts: nothing lost, nothing out of order, offers first among equals. |
| Charging.Desk.ChargeForAgreedFare | api-server/internal/ride/service.go:343-365 | Nothing happens if packages or Redis are missing or the guard key is set; otherwise the key is set first and a deduction asked for afterwards, whose failure changes nothing else. |
| Charging.Desk.RefundDriverCredit | api-server/internal/ride/service.go:241-259 | A refund is asked for, whether or not there was a charge. |
| Charging.Desk.CancelRide | api-server/internal/ride/service.go:445-458 | A ride cancelled after the fare was agreed and without the driver's fault is refunded. |
| Charging.RunSound | api-server/internal/ride/service.go:337-365 | In every run the driver is charged at most once, and not without an agreed fare. |
| Charging.ChargedIff | api-server/internal/ride/service.go:337-365 | In every run he is charged if and only if, at the step that agreed the fare, everything answered, no row had the ride's key, and he had a credit. |
| Charging.GuardIs | api-server/internal/ride/service.go:343-365 | The guard key is set by the step that agrees the fare, if packages and Redis are there, and by nothing else. |
| Charging.RefundedIff | api-server/internal/ride/service.go:241-458 | In every run he is refunded if and only if some step cancelled the confirmed ride without his fault, everything answered, and no row had the refund's key; whether he was charged does not matter. |
| Charging.AgreedOnce | api-server/internal/negotiation/service.go:274-360 | At most one step of a run agrees the fare, so at most one charge is attempted, whenever the guard key expires. |
| Charging.NetOfRide | api-server/internal/ride/service.go:241-365 | In every run in which the ledger's other business keeps off the ride's keys, what the ride has done to the driver's balance is refunds less charges, each at most one: he is one up if and only if he was refunded and not charged. |
| Charging.ConfirmedAndUncharged | api-server/internal/ride/service.go:343-365 | A driver with one ride, which another ride's deduction takes: everything answers, the ride ends up confirmed, its guard key set, and uncharged. |
| Charging.UnchargedAndRefunded | api-server/internal/ride/service.go:445-458 | When the customer then cancels, the driver has a credit again. |
| Money.Format | api-server/internal/digest/service.go:297-314 | The loop that puts a comma before every third digit from the end computes the text. |
| Money.CommasAsideIff | api-server/internal/digest/service.go:297-314 | Deleting the commas gives the decimal form, which parses back to the number, for every 64-bit number if and only if it is not the least. |
| Money.DecimalIsCanonical | api-server/internal/digest/service.go:297-314 | The decimal form has a sign for exactly the negative numbers and no leading zeros. |
| Money.MoneyIsInjective | api-server/internal/digest/service.go:297-314 | Different amounts have different texts. |
| Money.GroupsOfThree | api-server/internal/digest/service.go:297-314 | The first group has one to three digits, as many as threes leave over, and every later group exactly three. |
| Campaigns.Board.CreateCampaign | api-server/internal/admin/notifications.go:82-118 | A schedule in the past is sent at once, a draft has no schedule, and what is sent gets its time of sending and is claimed by the request. |
| Campaigns.Board.ClaimDue | api-server/internal/admin/notifications.go:371-403 | The claiming update marks every picked row sent and hands it to this replica. |
| Campaigns.Board.SendCampaign | api-server/internal/admin/notifications.go:469-487 | A draft or scheduled campaign is claimed, a sent one refused. |
| Campaigns.Board.DeleteCampaign | api-server/internal/admin/notifications.go:510-519 | The row goes. |
| Campaigns.CreateIs | api-server/internal/admin/notifications.go:82-118 | A campaign goes out at once, and is claimed by its request, if and only if it is to or its time has come; a later time is kept, a draft has none, and a schedule without a time is refused. |
| Campaigns.SendNowIs | api-server/internal/admin/notifications.go:469-519 | Sending now claims exactly a campaign not yet sent, deleting removes exactly the one; no other is touched. |
| Campaigns.DeliveredOnce | api-server/internal/admin/notifications.go:371-409 | Under any interleaving of replicas, requests, deletions and deaths no campaign is handed to delivery twice. |
| Campaigns.DeliveredRightly | api-server/internal/admin/notifications.go:371-507 | Every delivery comes from a claim its origin was entitled to: a draft only from "send now", a scheduled one from a dispatcher only when due. |
| Campaigns.DraftOnlyBySendNow | api-server/internal/admin/notifications.go:469-507 | A campaign inserted as a draft is claimed by nothing but "send now". |
| Campaigns.SentIff | api-server/internal/admin/notifications.go:107-118 | A campaign is marked sent if and only if it has a time of sending, and if and only if it was delivered, is about to be, or was lost with the process that had claimed it. |
| Campaigns.SentMeansDelivered | api-server/internal/admin/notifications.go:371-409 | Where no process dies and nothing is waiting, sent means delivered. |
| Campaigns.LostForGood | api-server/internal/admin/notifications.go:371-409 | What a process holds when it dies is never delivered by anybody, in any run. |
| Campaigns.GoesOutOnTime | api-server/internal/admin/notifications.go:371-384 | With fifty due at most, a scheduled campaign goes out with an unhindered dispatch if and only if its time has come. |
| Campaigns.DispatchTakesTheOldest | api-server/internal/admin/notifications.go:371-384 | A dispatcher that meets no lock takes fifty of the due campaigns, or all if they are fewer, and none that is due later than one it leaves. |
| Campaigns.DispatchTakesAllDue | api-server/internal/admin/notifications.go:371-384 | After n dispatchers in turn that meet no lock, as many are left due as exceed fifty times n, so none if and only if at most that many were due. |

## Left out

- Matching.AssignedDriverAccepted: an accept that names nobody is taken for the driver's, as in the code; the handlers always name the caller.
- Matching.SearchIsBounded: counts steps, not time; the waits between rounds and the overall deadline are the environment's choice to give up.
- Assigning one driver to two rides one after the other: the lock is gone before he is marked on a trip, so no claim is made about it.
- One search for one ride is assumed; searches restarted after a deployment are not modelled.
- GEO and PostGIS queries, radius widening and driver states: a round is given any list of at most ten drivers. A search radius of zero is outside the score.
- Floating point: distances, scores, fares and rates are reals. In the geohash this is exact, every bound being a dyadic fraction of 45.
- 64-bit overflow of sums in the ledger and in balances; amounts are unbounded integers there.
- Failing database writes inside a transaction. Redis commands fail, or are carried out with the reply lost, in `Matching`; elsewhere Redis answers. What limiters do when it does not (some admit, some refuse) is not modelled.
- Backfill.RunSound: a torn entry is the only partial write modelled; the description, source and memo columns are not, nor are entries of the journal other than package sales.
- Sessions.SwitchModeDrops: which mode switches are allowed is an input, and so is the role they write; sessions with the value "valid" of older builds, websocket tickets, signatures and the role claim are not modelled.
- Claims.RunSound: a review is one step there; what becomes of overlapping and killed ones is `Claims.LateApprovalIsSoundIff` and `Claims.KilledRun`. A request killed between a row's update and its audit row is not modelled. The purchase the granter makes for a package is opaque.
- Claims.RidesFor: the letters of a vehicle type are folded as ASCII.
- Negotiation.RunSound: each request is one step, and which party a user is has been settled before.
- Charging.ChargedIff: agreeing and charging are one step; the guard key's 24 hours are not modelled, there being one attempt only (`Charging.AgreedOnce`). The statuses of a ride under way count as confirmed.
- Campaigns.DeliveredOnce: delivery itself, with its workers, push tokens and feed rows, is one opaque step.
- Documents.Table.UpsertDriverDocument: the check that the profile exists, the list of allowed types and the profile picture are not modelled.
- Vehicles.Garage.CreateVehicle: looking up an inactive vehicle type is not modelled.
- Vehicles.RunSound: account deletion, which clears the driver's active flags, and the console's deletion of a driver are no steps of a run.
- Documents.VersionsAreForGood: account deletion and the console's deletion of a driver, which delete his documents, are no steps of a run.
- Entitlements.RunConsistent: one sweep is one step; what becomes of one that others get in between is `Entitlements.LateSweepIsConsistentIff`.
- Entitlements.Ledger.SweepExpired: the free trial and the purchase lifecycle around grants are not modelled.
- Time windows of the dashboard, listing, statistics, inbox, incidents, wallets, PDF and spreadsheet export, routing, SMS and push services: they hold no comparable property.
